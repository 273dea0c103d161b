/** Character classes and the small string operations the program borrows from
    Python: `\s`, `str.strip`, `str.splitlines`, `str.upper` and `str.join`.
    Text is modelled as a Python 2 byte string, so whitespace is the ASCII set
    space, tab, line feed, carriage return, vertical tab and form feed. */
module Strings {

  /** Python's `\s` on a byte string (and the set `str.strip()` removes). */
  const Whitespace: set<char> := {' ', '\t', '\n', '\r', '\U{0B}', '\U{0C}'}

  predicate IsSpace(c: char) {
    c in Whitespace
  }

  /** A line break for `str.splitlines` on a byte string. */
  predicate IsBreak(c: char) {
    c == '\n' || c == '\r'
  }

  predicate AllSpace(s: string) {
    forall i :: 0 <= i < |s| ==> IsSpace(s[i])
  }

  predicate NoSpace(s: string) {
    forall i :: 0 <= i < |s| ==> !IsSpace(s[i])
  }

  /** The non-whitespace characters of `s`, in order. */
  function NonSpace(s: string): string {
    if s == [] then []
    else (if IsSpace(s[0]) then [] else [s[0]]) + NonSpace(s[1..])
  }

  lemma {:induction false} NonSpaceAppend(a: string, b: string)
    ensures NonSpace(a + b) == NonSpace(a) + NonSpace(b)
  {
    if a == [] {
      assert a + b == b;
    } else {
      assert (a + b)[1..] == a[1..] + b;
      NonSpaceAppend(a[1..], b);
    }
  }

  /** Dropping a run of whitespace between two strings keeps the non-whitespace. */
  lemma NonSpaceAroundSpaces(a: string, t: string, c: string)
    requires AllSpace(t)
    ensures NonSpace(a + t + c) == NonSpace(a) + NonSpace(c)
  {
    NonSpaceAppend(a + t, c);
    NonSpaceAppend(a, t);
    NonSpaceOfSpaces(t);
  }

  lemma {:induction false} NonSpaceOfSpaces(s: string)
    requires AllSpace(s)
    ensures NonSpace(s) == []
  {
    if s != [] {
      NonSpaceOfSpaces(s[1..]);
    }
  }

  /** Concatenation of a list of strings, `''.join(ss)`. */
  function Join(ss: seq<string>): string {
    if ss == [] then [] else Join(ss[..|ss| - 1]) + ss[|ss| - 1]
  }

  lemma {:induction false} JoinAppend(a: seq<string>, b: seq<string>)
    ensures Join(a + b) == Join(a) + Join(b)
    decreases |b|
  {
    if b == [] {
      assert a + b == a;
    } else {
      assert (a + b)[..|a + b| - 1] == a + b[..|b| - 1];
      JoinAppend(a, b[..|b| - 1]);
    }
  }

  lemma JoinOne(s: string)
    ensures Join([s]) == s
  {
    assert [s][..0] == [];
  }

  // ---- strip -------------------------------------------------------------

  /** Length of the leading run of whitespace characters of `s`. */
  function SpaceLength(s: string): (n: nat)
    ensures n <= |s| && AllSpace(s[..n])
    ensures n < |s| ==> !IsSpace(s[n])
  {
    if s == [] || !IsSpace(s[0]) then 0
    else
      var n := 1 + SpaceLength(s[1..]);
      assert s[..n] == [s[0]] + s[1..][..n - 1];
      n
  }

  /** Length of the trailing run of whitespace characters of `s`. */
  function TrailLength(s: string): (n: nat)
    ensures n <= |s| && AllSpace(s[|s| - n..])
    ensures n < |s| ==> !IsSpace(s[|s| - 1 - n])
  {
    if s == [] || !IsSpace(s[|s| - 1]) then 0
    else
      var p := s[..|s| - 1];
      var m := TrailLength(p);
      assert s[|s| - 1 - m..] == p[|p| - m..] + [s[|s| - 1]];
      assert m < |p| ==> s[|s| - 2 - m] == p[|p| - 1 - m];
      1 + m
  }

  /** `str.strip()`: `s` without its leading and trailing whitespace. */
  function Strip(s: string): (r: string)
    ensures |r| <= |s|
    ensures r == [] || (!IsSpace(r[0]) && !IsSpace(r[|r| - 1]))
  {
    var t := s[SpaceLength(s)..];
    t[..|t| - TrailLength(t)]
  }

  /** What `Strip` removed: whitespace before and after the result. */
  lemma StripParts(s: string) returns (pre: string, post: string)
    ensures AllSpace(pre) && AllSpace(post)
    ensures s == pre + Strip(s) + post
  {
    var l := SpaceLength(s);
    var t := s[l..];
    var k := TrailLength(t);
    pre := s[..l];
    post := t[|t| - k..];
    var r := Strip(s);
    SplitAt(s, l);
    SplitAt(t, |t| - k);
    Assoc(pre, r, post);
  }

  lemma SplitAt(s: string, n: nat)
    requires n <= |s|
    ensures s == s[..n] + s[n..]
  {
  }

  lemma Assoc(a: string, b: string, c: string)
    ensures a + (b + c) == a + b + c
  {
  }

  /** Stripping only removes whitespace. */
  lemma StripKeepsNonSpace(s: string)
    ensures NonSpace(Strip(s)) == NonSpace(s)
  {
    var pre, post := StripParts(s);
    var r := Strip(s);
    Assoc(pre, r, post);
    calc {
      NonSpace(s);
      NonSpace(pre + (r + post));
      { NonSpaceAppend(pre, r + post); NonSpaceOfSpaces(pre); }
      NonSpace(r + post);
      { NonSpaceAppend(r, post); NonSpaceOfSpaces(post); }
      NonSpace(r);
    }
  }

  /** A string without whitespace is its own strip. */
  lemma StripWord(s: string)
    requires NoSpace(s)
    ensures Strip(s) == s
  {
    if s != [] {
      assert !IsSpace(s[0]) && !IsSpace(s[|s| - 1]);
    }
  }

  /** Whitespace after `s` does not change `Strip(s)`. */
  lemma StripTrailingSpace(s: string, t: string)
    requires AllSpace(t)
    ensures Strip(s + t) == Strip(s)
  {
    SpaceLengthAppend(s, t);
    if SpaceLength(s) < |s| {
      StripTrailingSpaceText(s, t);
    } else {
      assert (s + t)[|s + t|..] == [];
    }
  }

  lemma StripTrailingSpaceText(s: string, t: string)
    requires AllSpace(t) && SpaceLength(s) < |s| && SpaceLength(s + t) == SpaceLength(s)
    ensures Strip(s + t) == Strip(s)
  {
    var l := SpaceLength(s);
    var u := s[l..];
    DropAppend(s, t, l);
    TrailLengthAppend(u, t);
    TakeAppend(u, t, |u| - TrailLength(u));
  }

  lemma DropAppend(s: string, t: string, n: nat)
    requires n <= |s|
    ensures (s + t)[n..] == s[n..] + t
  {
  }

  lemma TakeAppend(u: string, t: string, n: nat)
    requires n <= |u|
    ensures (u + t)[..n] == u[..n]
  {
  }

  lemma {:induction false} SpaceLengthAppend(s: string, t: string)
    requires AllSpace(t)
    ensures SpaceLength(s) < |s| ==> SpaceLength(s + t) == SpaceLength(s)
    ensures SpaceLength(s) == |s| ==> SpaceLength(s + t) == |s| + |t|
  {
    if s == [] {
      assert s + t == t;
      AllSpaceLength(t);
    } else {
      assert (s + t)[1..] == s[1..] + t;
      assert (s + t)[0] == s[0];
      SpaceLengthAppend(s[1..], t);
    }
  }

  lemma {:induction false} AllSpaceLength(t: string)
    requires AllSpace(t)
    ensures SpaceLength(t) == |t|
  {
    if t != [] {
      AllSpaceLength(t[1..]);
    }
  }

  lemma {:induction false} TrailLengthAppend(u: string, t: string)
    requires AllSpace(t) && u != [] && !IsSpace(u[0])
    ensures TrailLength(u + t) == TrailLength(u) + |t|
    decreases |t|
  {
    if t == [] {
      assert u + t == u;
    } else {
      assert (u + t)[..|u + t| - 1] == u + t[..|t| - 1];
      TrailLengthAppend(u, t[..|t| - 1]);
    }
  }

  // ---- splitlines --------------------------------------------------------

  /** Length of the first line of `s`: the index of its first line break, or `|s|`. */
  function LineLength(s: string): (n: nat)
    ensures n <= |s| && (n < |s| ==> IsBreak(s[n]))
    ensures forall i :: 0 <= i < n ==> !IsBreak(s[i])
  {
    if s == [] || IsBreak(s[0]) then 0 else 1 + LineLength(s[1..])
  }

  /** Index just after the line break at `n`: a `\r\n` pair counts as one break. */
  function BreakEnd(s: string, n: nat): (next: nat)
    requires n < |s| && IsBreak(s[n])
    ensures n < next <= |s| && AllSpace(s[n..next])
  {
    if s[n] == '\r' && n + 1 < |s| && s[n + 1] == '\n' then n + 2 else n + 1
  }

  /** `str.splitlines()` on a byte string: break on `\n`, `\r` and `\r\n`, drop
      the breaks, and produce no final empty line after a trailing break. */
  function SplitLines(s: string): (lines: seq<string>)
    ensures s == [] <==> lines == []
    decreases |s|
  {
    if s == [] then []
    else
      var n := LineLength(s);
      if n == |s| then [s]
      else [s[..n]] + SplitLines(s[BreakEnd(s, n)..])
  }

  /** No line that `SplitLines` produces contains a line break. */
  lemma {:induction false} SplitLinesHaveNoBreaks(s: string)
    ensures forall k :: 0 <= k < |SplitLines(s)| ==> forall i :: 0 <= i < |SplitLines(s)[k]| ==> !IsBreak(SplitLines(s)[k][i])
    decreases |s|
  {
    if s != [] && LineLength(s) < |s| {
      SplitLinesHaveNoBreaks(s[BreakEnd(s, LineLength(s))..]);
    }
  }

  lemma SplitAround(s: string, n: nat, next: nat)
    requires n <= next <= |s|
    ensures s == s[..n] + s[n..next] + s[next..]
  {
  }

  /** Splitting into lines loses only line breaks, which are whitespace. */
  lemma {:induction false} SplitLinesKeepsNonSpace(s: string)
    ensures NonSpace(Join(SplitLines(s))) == NonSpace(s)
    decreases |s|
  {
    if s != [] {
      var n := LineLength(s);
      if n == |s| {
        JoinOne(s);
      } else {
        var next := BreakEnd(s, n);
        var rest := SplitLines(s[next..]);
        assert SplitLines(s) == [s[..n]] + rest;
        JoinAppend([s[..n]], rest);
        JoinOne(s[..n]);
        NonSpaceAppend(s[..n], Join(rest));
        SplitLinesKeepsNonSpace(s[next..]);
        NonSpaceAroundSpaces(s[..n], s[n..next], s[next..]);
        SplitAround(s, n, next);
      }
    }
  }

  // ---- upper -------------------------------------------------------------

  function UpperChar(c: char): char {
    if 'a' <= c <= 'z' then (c as int - 32) as char else c
  }

  /** `str.upper()` on ASCII text: every lower-case letter becomes upper-case. */
  function Upper(s: string): (r: string)
    ensures |r| == |s|
    ensures forall i :: 0 <= i < |s| ==> r[i] == UpperChar(s[i])
    ensures forall i :: 0 <= i < |r| ==> !('a' <= r[i] <= 'z')
  {
    seq(|s|, i requires 0 <= i < |s| => UpperChar(s[i]))
  }
}

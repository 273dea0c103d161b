/** Greedy word wrap measured in pixels (`word_wrap` in core.py).

    Each input line is cut into tokens that alternate between a run of
    non-whitespace (a word, possibly empty) and a run of whitespace, with an
    empty sentinel appended so that every word is followed by a whitespace
    token. Words are packed greedily into output lines against
    a pixel budget; a word is never split, and a word too wide for the budget
    gets a line of its own. */
module Wrap {
  import opened Strings

  // ---- tokens ------------------------------------------------------------

  /** Length of the leading run of non-whitespace characters of `s`. */
  function WordLength(s: string): (n: nat)
    ensures n <= |s| && NoSpace(s[..n])
    ensures n < |s| ==> IsSpace(s[n])
  {
    if s == [] || IsSpace(s[0]) then 0
    else
      var n := 1 + WordLength(s[1..]);
      assert s[..n] == [s[0]] + s[1..][..n - 1];
      n
  }

  /** One word of a line with the whitespace run that follows it. The token
      list `re.split(r'(\s+)', line) + ['']` that `word_wrap` walks is
      `[w0, s0, w1, s1, ..., wk, '']`; chunk `j` is the pair of tokens `2j`
      and `2j + 1`, so the loop's `index` is `2j` here. */
  datatype Chunk = Chunk(word: string, gap: string)

  /** The token list of a line, as chunks: every word with the whitespace
      after it; the last word's whitespace is the empty sentinel. */
  function Chunks(line: string): (cs: seq<Chunk>)
    ensures |cs| >= 1 && cs[|cs| - 1].gap == []
    decreases |line|
  {
    var w := WordLength(line);
    if w == |line| then [Chunk(line, "")]
    else
      var n := SpaceLength(line[w..]);
      [Chunk(line[..w], line[w..w + n])] + Chunks(line[w + n..])
  }

  /** Words hold no whitespace and gaps only whitespace. */
  lemma {:induction false} ChunksAlternate(line: string)
    ensures forall j :: 0 <= j < |Chunks(line)| ==> NoSpace(Chunks(line)[j].word) && AllSpace(Chunks(line)[j].gap)
    decreases |line|
  {
    var cs := Chunks(line);
    var w := WordLength(line);
    if w < |line| {
      var n := SpaceLength(line[w..]);
      var rest := Chunks(line[w + n..]);
      ChunksAlternate(line[w + n..]);
      assert cs == [Chunk(line[..w], line[w..w + n])] + rest;
      FirstChunk(line, w, n);
      forall j | 0 <= j < |cs|
        ensures NoSpace(cs[j].word) && AllSpace(cs[j].gap)
      {
        if j > 0 {
          assert cs[j] == rest[j - 1];
        }
      }
    } else {
      assert line[..w] == line;
    }
  }

  /** The first word of a line that has whitespace, and the run after it. */
  lemma FirstChunk(line: string, w: nat, n: nat)
    requires w == WordLength(line) < |line| && n == SpaceLength(line[w..])
    ensures NoSpace(line[..w]) && AllSpace(line[w..w + n]) && n > 0
  {
    assert line[w..][..n] == line[w..w + n];
    assert IsSpace(line[w..][0]);
  }

  /** Every whitespace run is kept whole: every gap but the last, which is
      the empty sentinel, is non-empty, and every word between the first
      and the last is non-empty, so no two gaps are adjacent. */
  lemma {:induction false} ChunksGaps(line: string)
    ensures forall j :: 0 <= j < |Chunks(line)| - 1 ==> Chunks(line)[j].gap != []
    ensures forall j :: 0 < j < |Chunks(line)| - 1 ==> Chunks(line)[j].word != []
    decreases |line|
  {
    var cs := Chunks(line);
    var w := WordLength(line);
    if w < |line| {
      var n := SpaceLength(line[w..]);
      var rest := Chunks(line[w + n..]);
      ChunksGaps(line[w + n..]);
      assert cs == [Chunk(line[..w], line[w..w + n])] + rest;
      FirstChunk(line, w, n);
      if |rest| >= 2 {
        NextWord(line, w, n);
      }
      forall j | 0 <= j < |cs| - 1
        ensures cs[j].gap != []
        ensures j > 0 ==> cs[j].word != []
      {
        if j > 0 {
          assert cs[j] == rest[j - 1];
        }
      }
    }
  }

  /** After a maximal whitespace run, the next chunk starts on a word unless
      it is the last one. */
  lemma NextWord(line: string, w: nat, n: nat)
    requires w == WordLength(line) < |line| && n == SpaceLength(line[w..])
    requires |Chunks(line[w + n..])| >= 2
    ensures Chunks(line[w + n..])[0].word != []
  {
    var suffix := line[w + n..];
    var v := WordLength(suffix);
    assert v < |suffix|;
    assert suffix[0] == line[w..][n];
    assert v >= 1;
    assert Chunks(suffix)[0].word == suffix[..v];
  }

  /** A chunk's text: its word followed by its whitespace. */
  function ChunkText(c: Chunk): string {
    c.word + c.gap
  }

  /** `''.join(tokens[2 * lo : 2 * hi])`. */
  function JoinChunks(cs: seq<Chunk>): string {
    if cs == [] then [] else JoinChunks(cs[..|cs| - 1]) + ChunkText(cs[|cs| - 1])
  }

  lemma {:induction false} JoinChunksAppend(a: seq<Chunk>, b: seq<Chunk>)
    ensures JoinChunks(a + b) == JoinChunks(a) + JoinChunks(b)
    decreases |b|
  {
    if b == [] {
      assert a + b == a;
    } else {
      assert (a + b)[..|a + b| - 1] == a + b[..|b| - 1];
      JoinChunksAppend(a, b[..|b| - 1]);
    }
  }

  lemma JoinChunksOne(c: Chunk)
    ensures JoinChunks([c]) == ChunkText(c)
  {
    assert [c][..0] == [];
  }

  /** The chunks of a line, joined again, give back the line. */
  lemma {:induction false} ChunksJoin(line: string)
    ensures JoinChunks(Chunks(line)) == line
    decreases |line|
  {
    var w := WordLength(line);
    if w == |line| {
      JoinChunksOne(Chunk(line, ""));
      assert line + "" == line;
    } else {
      var n := SpaceLength(line[w..]);
      var rest := line[w + n..];
      ChunksJoin(rest);
      JoinChunksAppend([Chunk(line[..w], line[w..w + n])], Chunks(rest));
      JoinChunksOne(Chunk(line[..w], line[w..w + n]));
      SplitAround(line, w, w + n);
    }
  }

  // ---- widths ------------------------------------------------------------

  /** Pixel width of a string as the sum of its characters' widths. */
  function TextWidth(charWidth: char -> nat, t: string): nat {
    if t == [] then 0 else charWidth(t[0]) + TextWidth(charWidth, t[1..])
  }

  lemma {:induction false} TextWidthAppend(charWidth: char -> nat, a: string, b: string)
    ensures TextWidth(charWidth, a + b) == TextWidth(charWidth, a) + TextWidth(charWidth, b)
  {
    if a == [] {
      assert a + b == b;
    } else {
      assert (a + b)[1..] == a[1..] + b;
      TextWidthAppend(charWidth, a[1..], b);
    }
  }

  /** Widths of a chunk's two tokens (`widths[2j]`, `widths[2j + 1]`). */
  datatype Measure = Measure(word: nat, gap: nat)

  /** `ms` holds the widths of the chunks `cs`, one measure per chunk. */
  predicate Measured(charWidth: char -> nat, cs: seq<Chunk>, ms: seq<Measure>) {
    |ms| == |cs|
    && forall j {:trigger ms[j]} :: 0 <= j < |cs| ==> ms[j] == Measure(TextWidth(charWidth, cs[j].word), TextWidth(charWidth, cs[j].gap))
  }

  function Widths(charWidth: char -> nat, cs: seq<Chunk>): (ms: seq<Measure>)
    ensures Measured(charWidth, cs, ms)
  {
    seq(|cs|, j requires 0 <= j < |cs| => Measure(TextWidth(charWidth, cs[j].word), TextWidth(charWidth, cs[j].gap)))
  }

  /** Width of chunks `lo` up to (not including) `hi`, whitespace included. */
  function Sum(ms: seq<Measure>, lo: nat, hi: nat): nat
    requires lo <= hi <= |ms|
    decreases hi - lo
  {
    if lo == hi then 0 else Sum(ms, lo, hi - 1) + ms[hi - 1].word + ms[hi - 1].gap
  }

  /** Width of chunks `lo..hi` up to the end of the last word: the whitespace
      after the last word does not count. */
  function Reach(ms: seq<Measure>, lo: nat, hi: nat): nat
    requires lo < hi <= |ms|
  {
    Sum(ms, lo, hi - 1) + ms[hi - 1].word
  }

  lemma {:induction false} ReachCovers(ms: seq<Measure>, lo: nat, i: nat, hi: nat)
    requires lo <= i < hi <= |ms|
    ensures Reach(ms, lo, hi) >= ms[i].word
    decreases hi - lo
  {
    if i < hi - 1 {
      ReachCovers(ms, lo, i, hi - 1);
    }
  }

  /** The width of joined chunks is the sum of their widths. */
  lemma {:induction false} JoinWidth(charWidth: char -> nat, cs: seq<Chunk>, ms: seq<Measure>, lo: nat, hi: nat)
    requires Measured(charWidth, cs, ms) && lo <= hi <= |cs|
    ensures TextWidth(charWidth, JoinChunks(cs[lo..hi])) == Sum(ms, lo, hi)
    decreases hi - lo
  {
    if lo < hi {
      JoinWidth(charWidth, cs, ms, lo, hi - 1);
      JoinWidthStep(charWidth, cs, ms, lo, hi);
    } else {
      JoinWidthEmpty(charWidth, cs, ms, lo);
    }
  }

  lemma JoinWidthEmpty(charWidth: char -> nat, cs: seq<Chunk>, ms: seq<Measure>, lo: nat)
    requires Measured(charWidth, cs, ms) && lo <= |cs|
    ensures TextWidth(charWidth, JoinChunks(cs[lo..lo])) == Sum(ms, lo, lo)
  {
    assert cs[lo..lo] == [];
  }

  /** Joining one more chunk adds its word's and its whitespace's widths. */
  lemma JoinWidthStep(charWidth: char -> nat, cs: seq<Chunk>, ms: seq<Measure>, lo: nat, hi: nat)
    requires Measured(charWidth, cs, ms) && lo < hi <= |cs|
    requires TextWidth(charWidth, JoinChunks(cs[lo..hi - 1])) == Sum(ms, lo, hi - 1)
    ensures TextWidth(charWidth, JoinChunks(cs[lo..hi])) == Sum(ms, lo, hi)
  {
    var c := cs[hi - 1];
    var prefix := JoinChunks(cs[lo..hi - 1]);
    assert TextWidth(charWidth, JoinChunks(cs[lo..hi]))
      == TextWidth(charWidth, prefix) + TextWidth(charWidth, c.word) + TextWidth(charWidth, c.gap) by {
      SpanText(cs, lo, hi);
      TextWidthAppend(charWidth, prefix + c.word, c.gap);
      TextWidthAppend(charWidth, prefix, c.word);
    }
    SumLast(ms, lo, hi);
    assert ms[hi - 1].word == TextWidth(charWidth, c.word);
    assert ms[hi - 1].gap == TextWidth(charWidth, c.gap);
  }

  lemma SumLast(ms: seq<Measure>, lo: nat, hi: nat)
    requires lo < hi <= |ms|
    ensures Sum(ms, lo, hi) == Sum(ms, lo, hi - 1) + ms[hi - 1].word + ms[hi - 1].gap
  {
  }

  // ---- the greedy loop ---------------------------------------------------

  /** An output line cut from the chunk list: chunks `lo` up to (not
      including) `hi`, that is tokens `2 * lo` up to `2 * hi`. */
  datatype Span = Span(lo: nat, hi: nat)

  /** `r` cuts `lo..hi` into consecutive non-empty spans. */
  predicate Tiles(r: seq<Span>, lo: nat, hi: nat)
    decreases |r|
  {
    if r == [] then lo == hi
    else r[0].lo == lo && lo < r[0].hi && Tiles(r[1..], r[0].hi, hi)
  }

  predicate InBounds(r: seq<Span>, n: nat) {
    forall k :: 0 <= k < |r| ==> r[k].lo < r[k].hi <= n
  }

  /** Every span holding two or more words fits the budget up to the end of
      its last word. */
  predicate Fits(ms: seq<Measure>, width: int, r: seq<Span>) {
    forall k :: 0 <= k < |r| && r[k].lo + 2 <= r[k].hi <= |ms| ==> Reach(ms, r[k].lo, r[k].hi) <= width
  }

  /** Every span but the last ended because the next word overflowed. */
  predicate Greedy(ms: seq<Measure>, width: int, r: seq<Span>) {
    forall k :: 0 <= k < |r| - 1 && r[k].lo <= r[k].hi < |ms| ==> Sum(ms, r[k].lo, r[k].hi) + ms[r[k].hi].word > width
  }

  /** The lines the loop of `word_wrap` cuts from one input line, from the
      loop state `index` (here a chunk index), `start` and `total` onwards. */
  function Spans(ms: seq<Measure>, width: int, index: nat, start: nat, total: nat): (r: seq<Span>)
    requires start <= index <= |ms|
    ensures Tiles(r, start, |ms|)
    ensures InBounds(r, |ms|)
    decreases |ms| - index
  {
    if index == |ms| then
      if start < |ms| then [Span(start, |ms|)] else []
    else if total + ms[index].word > width then
      if index == start then
        [Span(start, index + 1)] + Spans(ms, width, index + 1, index + 1, 0)
      else
        [Span(start, index)] + Spans(ms, width, index + 1, index, ms[index].word + ms[index].gap)
    else
      Spans(ms, width, index + 1, start, total + ms[index].word + ms[index].gap)
  }

  /** The loop's lines stay within budget: a line of two or more words fits
      up to the end of its last word. */
  lemma {:induction false} SpansFit(ms: seq<Measure>, width: int, index: nat, start: nat, total: nat)
    requires start <= index <= |ms|
    requires total == Sum(ms, start, index)
    requires start + 2 <= index ==> Reach(ms, start, index) <= width
    ensures Fits(ms, width, Spans(ms, width, index, start, total))
    decreases |ms| - index
  {
    if index == |ms| {
    } else if total + ms[index].word > width {
      if index == start {
        SpansFit(ms, width, index + 1, index + 1, 0);
        FitsCons(ms, width, Span(start, index + 1), Spans(ms, width, index + 1, index + 1, 0));
      } else {
        SpansFit(ms, width, index + 1, index, ms[index].word + ms[index].gap);
        FitsCons(ms, width, Span(start, index), Spans(ms, width, index + 1, index, ms[index].word + ms[index].gap));
      }
    } else {
      SpansFit(ms, width, index + 1, start, total + ms[index].word + ms[index].gap);
    }
  }

  /** The loop's lines are greedy: a line ends only when the next word would
      overflow it. */
  lemma {:induction false} SpansGreedy(ms: seq<Measure>, width: int, index: nat, start: nat, total: nat)
    requires start <= index <= |ms|
    requires total == Sum(ms, start, index)
    ensures Greedy(ms, width, Spans(ms, width, index, start, total))
    decreases |ms| - index
  {
    if index == |ms| {
    } else if total + ms[index].word > width {
      if index == start {
        SpansGreedy(ms, width, index + 1, index + 1, 0);
        if index + 1 < |ms| {
          SumLast(ms, start, index + 1);
        }
        GreedyCons(ms, width, Span(start, index + 1), Spans(ms, width, index + 1, index + 1, 0));
      } else {
        SpansGreedy(ms, width, index + 1, index, ms[index].word + ms[index].gap);
        GreedyCons(ms, width, Span(start, index), Spans(ms, width, index + 1, index, ms[index].word + ms[index].gap));
      }
    } else {
      SpansGreedy(ms, width, index + 1, start, total + ms[index].word + ms[index].gap);
    }
  }

  lemma FitsCons(ms: seq<Measure>, width: int, s: Span, rest: seq<Span>)
    requires Fits(ms, width, rest)
    requires s.lo + 2 <= s.hi <= |ms| ==> Reach(ms, s.lo, s.hi) <= width
    ensures Fits(ms, width, [s] + rest)
  {
    var r := [s] + rest;
    assert forall k :: 1 <= k < |r| ==> r[k] == rest[k - 1];
  }

  lemma GreedyCons(ms: seq<Measure>, width: int, s: Span, rest: seq<Span>)
    requires Greedy(ms, width, rest)
    requires rest != [] && s.lo <= s.hi < |ms| ==> Sum(ms, s.lo, s.hi) + ms[s.hi].word > width
    ensures Greedy(ms, width, [s] + rest)
  {
    var r := [s] + rest;
    assert forall k :: 1 <= k < |r| ==> r[k] == rest[k - 1];
  }

  /** A word wider than the budget is placed on a line of its own. */
  lemma OversizeWordAlone(ms: seq<Measure>, width: int, r: seq<Span>, i: nat)
    requires Tiles(r, 0, |ms|) && InBounds(r, |ms|) && Fits(ms, width, r)
    requires i < |ms| && ms[i].word > width
    ensures Span(i, i + 1) in r
  {
    var k := SpanOf(r, 0, |ms|, i);
    if r[k].lo + 2 <= r[k].hi {
      ReachCovers(ms, r[k].lo, i, r[k].hi);
      assert false;
    }
  }

  /** The span of a tiling that contains position `i`. */
  lemma {:induction false} SpanOf(r: seq<Span>, lo: nat, hi: nat, i: nat) returns (k: nat)
    requires Tiles(r, lo, hi) && lo <= i < hi
    ensures k < |r| && r[k].lo <= i < r[k].hi
    decreases |r|
  {
    if i < r[0].hi {
      k := 0;
    } else {
      var k' := SpanOf(r[1..], r[0].hi, hi, i);
      k := k' + 1;
    }
  }

  // ---- from spans to text ------------------------------------------------

  /** `''.join(tokens[2 * lo : 2 * hi])` for each span. */
  function Texts(cs: seq<Chunk>, r: seq<Span>): (lines: seq<string>)
    requires InBounds(r, |cs|)
    ensures |lines| == |r|
  {
    if r == [] then [] else [JoinChunks(cs[r[0].lo..r[0].hi])] + Texts(cs, r[1..])
  }

  lemma {:induction false} TextsAt(cs: seq<Chunk>, r: seq<Span>, k: nat)
    requires InBounds(r, |cs|) && k < |r|
    ensures Texts(cs, r)[k] == JoinChunks(cs[r[k].lo..r[k].hi])
    decreases k
  {
    if k > 0 {
      TextsAt(cs, r[1..], k - 1);
    }
  }

  /** Joining the lines of a tiling gives back the tiled chunks, joined. */
  lemma {:induction false} TextsJoin(cs: seq<Chunk>, r: seq<Span>, lo: nat, hi: nat)
    requires Tiles(r, lo, hi) && InBounds(r, |cs|) && hi <= |cs|
    ensures lo <= hi && Join(Texts(cs, r)) == JoinChunks(cs[lo..hi])
    decreases |r|
  {
    if r == [] {
      assert cs[lo..hi] == [];
    } else {
      var m := r[0].hi;
      var head := JoinChunks(cs[lo..m]);
      var tail := Texts(cs, r[1..]);
      TextsJoin(cs, r[1..], m, hi);
      assert Texts(cs, r) == [head] + tail;
      JoinAppend([head], tail);
      JoinOne(head);
      JoinChunksAppend(cs[lo..m], cs[m..hi]);
      assert cs[lo..m] + cs[m..hi] == cs[lo..hi];
    }
  }

  /** The unstripped lines one input line contributes. */
  function WrapLine(charWidth: char -> nat, width: int, line: string): seq<string> {
    var cs := Chunks(line);
    Cut(cs, Widths(charWidth, cs), width, 0, 0, 0)
  }

  /** The unstripped lines of all input lines, in order. */
  function RawLines(charWidth: char -> nat, width: int, lines: seq<string>): seq<string> {
    if lines == [] then []
    else RawLines(charWidth, width, lines[..|lines| - 1]) + WrapLine(charWidth, width, lines[|lines| - 1])
  }

  function StripAll(lines: seq<string>): (r: seq<string>)
    ensures |r| == |lines|
    ensures forall k :: 0 <= k < |lines| ==> r[k] == Strip(lines[k])
  {
    seq(|lines|, k requires 0 <= k < |lines| => Strip(lines[k]))
  }

  /** What `word_wrap(dc, width, text)` returns, with `charWidth` the pixel
      width of one character in the context's current font. */
  function WrapText(charWidth: char -> nat, width: int, text: string): seq<string> {
    var stripped := StripAll(RawLines(charWidth, width, SplitLines(text)));
    if stripped == [] then [""] else stripped
  }

  /** The lines the loop of `word_wrap` appends for one input line, from the
      loop state `index`, `start` and `total` onwards. */
  function Cut(cs: seq<Chunk>, ms: seq<Measure>, width: int, index: nat, start: nat, total: nat): seq<string>
    requires |ms| == |cs| && start <= index <= |cs|
    decreases |cs| - index
  {
    if index == |cs| then
      if start < |cs| then [JoinChunks(cs[start..])] else []
    else if total + ms[index].word > width then
      if index == start then
        [JoinChunks(cs[start..index + 1])] + Cut(cs, ms, width, index + 1, index + 1, 0)
      else
        [JoinChunks(cs[start..index])] + Cut(cs, ms, width, index + 1, index, ms[index].word + ms[index].gap)
    else
      Cut(cs, ms, width, index + 1, start, total + ms[index].word + ms[index].gap)
  }

  /** The lines the loop appends are the texts of the spans it cuts. */
  lemma {:induction false} CutIsTexts(cs: seq<Chunk>, ms: seq<Measure>, width: int, index: nat, start: nat, total: nat)
    requires |ms| == |cs| && start <= index <= |cs|
    ensures Cut(cs, ms, width, index, start, total) == Texts(cs, Spans(ms, width, index, start, total))
    decreases |cs| - index
  {
    if index == |cs| {
      CutIsTextsEnd(cs, ms, width, start, total);
    } else if total + ms[index].word > width {
      if index == start {
        CutIsTexts(cs, ms, width, index + 1, index + 1, 0);
        CutIsTextsAlone(cs, ms, width, index, total);
      } else {
        CutIsTexts(cs, ms, width, index + 1, index, ms[index].word + ms[index].gap);
        CutIsTextsBreak(cs, ms, width, index, start, total);
      }
    } else {
      CutIsTexts(cs, ms, width, index + 1, start, total + ms[index].word + ms[index].gap);
    }
  }

  /** The end of the line: what is left becomes the last line. */
  lemma CutIsTextsEnd(cs: seq<Chunk>, ms: seq<Measure>, width: int, start: nat, total: nat)
    requires |ms| == |cs| && start <= |cs|
    ensures Cut(cs, ms, width, |cs|, start, total) == Texts(cs, Spans(ms, width, |cs|, start, total))
  {
    if start < |cs| {
      assert cs[start..] == cs[start..|cs|];
      TextsCons(cs, Span(start, |cs|), []);
    }
  }

  /** A word that overflows an empty line takes the line by itself. */
  lemma CutIsTextsAlone(cs: seq<Chunk>, ms: seq<Measure>, width: int, index: nat, total: nat)
    requires |ms| == |cs| && index < |cs| && total + ms[index].word > width
    requires Cut(cs, ms, width, index + 1, index + 1, 0) == Texts(cs, Spans(ms, width, index + 1, index + 1, 0))
    ensures Cut(cs, ms, width, index, index, total) == Texts(cs, Spans(ms, width, index, index, total))
  {
    TextsCons(cs, Span(index, index + 1), Spans(ms, width, index + 1, index + 1, 0));
  }

  /** A word that overflows a started line ends that line and starts the next. */
  lemma CutIsTextsBreak(cs: seq<Chunk>, ms: seq<Measure>, width: int, index: nat, start: nat, total: nat)
    requires |ms| == |cs| && start < index < |cs| && total + ms[index].word > width
    requires Cut(cs, ms, width, index + 1, index, ms[index].word + ms[index].gap)
      == Texts(cs, Spans(ms, width, index + 1, index, ms[index].word + ms[index].gap))
    ensures Cut(cs, ms, width, index, start, total) == Texts(cs, Spans(ms, width, index, start, total))
  {
    TextsCons(cs, Span(start, index), Spans(ms, width, index + 1, index, ms[index].word + ms[index].gap));
  }

  lemma TextsCons(cs: seq<Chunk>, s: Span, r: seq<Span>)
    requires s.lo < s.hi <= |cs| && InBounds(r, |cs|)
    ensures InBounds([s] + r, |cs|)
    ensures Texts(cs, [s] + r) == [JoinChunks(cs[s.lo..s.hi])] + Texts(cs, r)
  {
    assert ([s] + r)[1..] == r;
  }

  /** One input line of `word_wrap`: split it into tokens, measure them and
      cut it into lines. */
  method WrapOne(charWidth: char -> nat, width: int, line: string) returns (out: seq<string>)
    ensures out == WrapLine(charWidth, width, line)
  {
    var chunks := Chunks(line);
    var widths := Widths(charWidth, chunks);
    out := CutLines(chunks, widths, width);
  }

  /** The loop over one line's words, with a running `start` and `total`,
      cutting a line whenever a word overflows the budget. */
  method CutLines(chunks: seq<Chunk>, widths: seq<Measure>, width: int) returns (out: seq<string>)
    requires |widths| == |chunks|
    ensures out == Cut(chunks, widths, width, 0, 0, 0)
  {
    var start, index := 0, 0;
    var total: nat := 0;
    out := [];
    while index < |chunks|
      invariant start <= index <= |chunks|
      invariant out + Cut(chunks, widths, width, index, start, total) == Cut(chunks, widths, width, 0, 0, 0)
      decreases |chunks| - index
    {
      if total + widths[index].word > width {
        var end := if index == start then index + 1 else index;
        out := out + [JoinChunks(chunks[start..end])];
        start, total := end, 0;
        if end == index + 1 {
          index := index + 1;
          continue;
        }
      }
      total := total + widths[index].word + widths[index].gap;
      index := index + 1;
    }
    if start < |chunks| {
      out := out + [JoinChunks(chunks[start..])];
    }
  }

  /** `word_wrap`: wrap every input line, then strip every output line. */
  method WordWrap(charWidth: char -> nat, width: int, text: string) returns (lines: seq<string>)
    ensures lines == WrapText(charWidth, width, text)
  {
    var raw: seq<string> := [];
    var inputs := SplitLines(text);
    for n := 0 to |inputs|
      invariant raw == RawLines(charWidth, width, inputs[..n])
    {
      var more := WrapOne(charWidth, width, inputs[n]);
      raw := raw + more;
      assert inputs[..n + 1][..n] == inputs[..n];
    }
    assert inputs[..|inputs|] == inputs;
    lines := StripAll(raw);
    if lines == [] {
      lines := [""];
    }
  }

  // ---- properties of the wrapped text ------------------------------------

  /** Every input line yields at least one output line. */
  lemma WrapLineNonEmpty(charWidth: char -> nat, width: int, line: string)
    ensures |WrapLine(charWidth, width, line)| >= 1
  {
    var cs := Chunks(line);
    var r := Spans(Widths(charWidth, cs), width, 0, 0, 0);
    CutIsTexts(cs, Widths(charWidth, cs), width, 0, 0, 0);
    assert Tiles(r, 0, |cs|);
  }

  lemma {:induction false} RawLinesEmpty(charWidth: char -> nat, width: int, lines: seq<string>)
    ensures RawLines(charWidth, width, lines) == [] <==> lines == []
  {
    if lines != [] {
      WrapLineNonEmpty(charWidth, width, lines[|lines| - 1]);
    }
  }

  /** `s` neither starts nor ends with whitespace. */
  predicate Trimmed(s: string) {
    s == [] || (!IsSpace(s[0]) && !IsSpace(s[|s| - 1]))
  }

  /** `word_wrap` never returns an empty list, returns `['']` for text
      without lines, and no returned line starts or ends with whitespace. */
  lemma WrapTextShape(charWidth: char -> nat, width: int, text: string)
    ensures |WrapText(charWidth, width, text)| >= 1
    ensures text == [] ==> WrapText(charWidth, width, text) == [""]
    ensures forall k :: 0 <= k < |WrapText(charWidth, width, text)| ==> Trimmed(WrapText(charWidth, width, text)[k])
  {
    var raw := RawLines(charWidth, width, SplitLines(text));
    var stripped := StripAll(raw);
    RawLinesEmpty(charWidth, width, SplitLines(text));
    assert WrapText(charWidth, width, text) == (if stripped == [] then [""] else stripped);
    forall k | 0 <= k < |stripped|
      ensures Trimmed(stripped[k])
    {
      assert stripped[k] == Strip(raw[k]);
    }
  }

  /** One input line's output keeps exactly its non-whitespace characters. */
  lemma WrapLineKeepsNonSpace(charWidth: char -> nat, width: int, line: string)
    ensures NonSpace(Join(WrapLine(charWidth, width, line))) == NonSpace(line)
  {
    var cs := Chunks(line);
    var r := Spans(Widths(charWidth, cs), width, 0, 0, 0);
    CutIsTexts(cs, Widths(charWidth, cs), width, 0, 0, 0);
    TextsJoin(cs, r, 0, |cs|);
    assert cs[0..|cs|] == cs;
    ChunksJoin(line);
  }

  lemma {:induction false} RawLinesKeepNonSpace(charWidth: char -> nat, width: int, lines: seq<string>)
    ensures NonSpace(Join(RawLines(charWidth, width, lines))) == NonSpace(Join(lines))
  {
    if lines != [] {
      var init := lines[..|lines| - 1];
      var last := lines[|lines| - 1];
      RawLinesKeepNonSpace(charWidth, width, init);
      JoinAppend(RawLines(charWidth, width, init), WrapLine(charWidth, width, last));
      NonSpaceAppend(Join(RawLines(charWidth, width, init)), Join(WrapLine(charWidth, width, last)));
      WrapLineKeepsNonSpace(charWidth, width, last);
      NonSpaceAppend(Join(init), last);
    }
  }

  lemma {:induction false} StripAllKeepsNonSpace(lines: seq<string>)
    ensures NonSpace(Join(StripAll(lines))) == NonSpace(Join(lines))
  {
    if lines != [] {
      var init := lines[..|lines| - 1];
      assert StripAll(lines)[..|lines| - 1] == StripAll(init);
      StripAllKeepsNonSpace(init);
      NonSpaceAppend(Join(StripAll(init)), Strip(lines[|lines| - 1]));
      NonSpaceAppend(Join(init), lines[|lines| - 1]);
      StripKeepsNonSpace(lines[|lines| - 1]);
    }
  }

  /** No loss: the output lines, read in order, hold exactly the
      non-whitespace characters of the input text, in order. */
  lemma WrapTextKeepsNonSpace(charWidth: char -> nat, width: int, text: string)
    ensures NonSpace(Join(WrapText(charWidth, width, text))) == NonSpace(text)
  {
    var raw := RawLines(charWidth, width, SplitLines(text));
    StripAllKeepsNonSpace(raw);
    RawLinesKeepNonSpace(charWidth, width, SplitLines(text));
    SplitLinesKeepsNonSpace(text);
    if StripAll(raw) == [] {
      JoinOne("");
    }
  }

  /** What every output line satisfies: it fits the budget, or it is a single
      word without whitespace. */
  predicate FitsOrWord(charWidth: char -> nat, width: int, l: string) {
    TextWidth(charWidth, l) <= width || NoSpace(l)
  }

  lemma StripWidth(charWidth: char -> nat, s: string)
    ensures TextWidth(charWidth, Strip(s)) <= TextWidth(charWidth, s)
  {
    var pre, post := StripParts(s);
    TextWidthAppend(charWidth, pre + Strip(s), post);
    TextWidthAppend(charWidth, pre, Strip(s));
  }

  /** The text of chunks `lo..hi` is the text up to the end of the last word
      followed by the last chunk's whitespace. */
  lemma SpanText(cs: seq<Chunk>, lo: nat, hi: nat)
    requires lo < hi <= |cs|
    ensures JoinChunks(cs[lo..hi]) == JoinChunks(cs[lo..hi - 1]) + cs[hi - 1].word + cs[hi - 1].gap
  {
    assert cs[lo..hi][..hi - lo - 1] == cs[lo..hi - 1];
  }

  /** A cut line is some text, then the last word, then its whitespace: once
      stripped it is within budget when the text up to the last word is, and
      it is a single word when there is nothing before the last word. */
  lemma CutLineFits(charWidth: char -> nat, width: int, head: string, word: string, gap: string)
    requires NoSpace(word) && AllSpace(gap)
    requires head == [] || TextWidth(charWidth, head + word) <= width
    ensures FitsOrWord(charWidth, width, Strip(head + word + gap))
  {
    StripTrailingSpace(head + word, gap);
    if head == [] {
      assert head + word == word;
      StripWord(word);
      assert Strip(word) == word;
    } else {
      StripWidth(charWidth, head + word);
    }
  }

  /** A line cut by the loop, once stripped, is within budget or is one word. */
  lemma SpanLineFits(charWidth: char -> nat, width: int, cs: seq<Chunk>, lo: nat, hi: nat)
    requires lo < hi <= |cs|
    requires NoSpace(cs[hi - 1].word) && AllSpace(cs[hi - 1].gap)
    requires lo + 2 <= hi ==> Reach(Widths(charWidth, cs), lo, hi) <= width
    ensures FitsOrWord(charWidth, width, Strip(JoinChunks(cs[lo..hi])))
  {
    SpanText(cs, lo, hi);
    if lo + 2 <= hi {
      BodyWidth(charWidth, cs, Widths(charWidth, cs), lo, hi);
    } else {
      assert cs[lo..hi - 1] == [];
    }
    CutLineFits(charWidth, width, JoinChunks(cs[lo..hi - 1]), cs[hi - 1].word, cs[hi - 1].gap);
  }

  lemma BodyWidth(charWidth: char -> nat, cs: seq<Chunk>, ms: seq<Measure>, lo: nat, hi: nat)
    requires Measured(charWidth, cs, ms) && lo < hi <= |cs|
    ensures TextWidth(charWidth, JoinChunks(cs[lo..hi - 1]) + cs[hi - 1].word) == Reach(ms, lo, hi)
  {
    JoinWidth(charWidth, cs, ms, lo, hi - 1);
    assert ms[hi - 1].word == TextWidth(charWidth, cs[hi - 1].word);
    AppendWidth(charWidth, JoinChunks(cs[lo..hi - 1]), cs[hi - 1].word, Sum(ms, lo, hi - 1), ms[hi - 1].word);
  }

  lemma AppendWidth(charWidth: char -> nat, head: string, word: string, headWidth: nat, wordWidth: nat)
    requires TextWidth(charWidth, head) == headWidth && TextWidth(charWidth, word) == wordWidth
    ensures TextWidth(charWidth, head + word) == headWidth + wordWidth
  {
    TextWidthAppend(charWidth, head, word);
  }

  /** Every line one input line yields fits the budget or is a single word. */
  lemma WrapLineFits(charWidth: char -> nat, width: int, line: string)
    ensures AllFit(charWidth, width, StripAll(WrapLine(charWidth, width, line)))
  {
    var cs := Chunks(line);
    var ms := Widths(charWidth, cs);
    var r := Spans(ms, width, 0, 0, 0);
    var ls := StripAll(WrapLine(charWidth, width, line));
    CutIsTexts(cs, ms, width, 0, 0, 0);
    SpansFit(ms, width, 0, 0, 0);
    ChunksAlternate(line);
    forall k | 0 <= k < |ls|
      ensures FitsOrWord(charWidth, width, ls[k])
    {
      TextsAt(cs, r, k);
      SpanLineFits(charWidth, width, cs, r[k].lo, r[k].hi);
    }
  }

  lemma {:induction false} RawLinesFit(charWidth: char -> nat, width: int, lines: seq<string>)
    ensures AllFit(charWidth, width, StripAll(RawLines(charWidth, width, lines)))
  {
    if lines != [] {
      var init := lines[..|lines| - 1];
      RawLinesFit(charWidth, width, init);
      WrapLineFits(charWidth, width, lines[|lines| - 1]);
      var a := RawLines(charWidth, width, init);
      var b := WrapLine(charWidth, width, lines[|lines| - 1]);
      assert RawLines(charWidth, width, lines) == a + b;
      StripAllAppend(a, b);
      AllFitAppend(charWidth, width, StripAll(a), StripAll(b));
    }
  }

  lemma StripAllAppend(a: seq<string>, b: seq<string>)
    ensures StripAll(a + b) == StripAll(a) + StripAll(b)
  {
  }

  /** Every line of `ls` fits the budget or is a single word. */
  predicate AllFit(charWidth: char -> nat, width: int, ls: seq<string>) {
    forall k :: 0 <= k < |ls| ==> FitsOrWord(charWidth, width, ls[k])
  }

  lemma AllFitAppend(charWidth: char -> nat, width: int, a: seq<string>, b: seq<string>)
    requires AllFit(charWidth, width, a) && AllFit(charWidth, width, b)
    ensures AllFit(charWidth, width, a + b)
  {
    forall k | 0 <= k < |a + b|
      ensures FitsOrWord(charWidth, width, (a + b)[k])
    {
      if k < |a| {
        assert (a + b)[k] == a[k];
      } else {
        assert (a + b)[k] == b[k - |a|];
      }
    }
  }

  /** Every line `word_wrap` returns fits the budget, or is a single word that
      alone is too wide. */
  lemma WrapTextFits(charWidth: char -> nat, width: int, text: string)
    ensures AllFit(charWidth, width, WrapText(charWidth, width, text))
  {
    var stripped := StripAll(RawLines(charWidth, width, SplitLines(text)));
    RawLinesFit(charWidth, width, SplitLines(text));
    if stripped == [] {
      assert FitsOrWord(charWidth, width, "");
      assert AllFit(charWidth, width, [""]);
    }
  }

  /** What the loop's cut of a line satisfies: consecutive spans that
      together cover every chunk, multi-word ones within budget up to their
      last word, each ended only by an overflowing word, and any too-wide word
      alone on its line. */
  predicate GreedyCut(ms: seq<Measure>, width: int, r: seq<Span>) {
    && Tiles(r, 0, |ms|) && Fits(ms, width, r) && Greedy(ms, width, r)
    && (forall i :: 0 <= i < |ms| && ms[i].word > width ==> Span(i, i + 1) in r)
  }

  /** The loop of `word_wrap`, run from its initial state, cuts greedily. */
  lemma SpansAreGreedyCut(ms: seq<Measure>, width: int)
    ensures GreedyCut(ms, width, Spans(ms, width, 0, 0, 0))
  {
    var r := Spans(ms, width, 0, 0, 0);
    SpansFit(ms, width, 0, 0, 0);
    SpansGreedy(ms, width, 0, 0, 0);
    forall i | 0 <= i < |ms| && ms[i].word > width
      ensures Span(i, i + 1) in r
    {
      OversizeWordAlone(ms, width, r, i);
    }
  }
}

/** The `Text` control of core.py: a block of word-wrapped text of a fixed
    width, whose height is the height of its lines (optionally capped), drawn
    line by line with an alignment, an optional shadow and an optional
    outline. */
module TextBlock {
  import opened Strings
  import opened Wrap
  import opened Resources
  import opened Canvas

  /** `LEFT = 1`, `RIGHT = 2`, `CENTER = 3`. */
  datatype Alignment = Left | Right | Center

  /** `font(face='', size=12, bold=False, italic=False, underline=False)`:
      the key tuple of a font. */
  function FontOptions(face: string := "", size: int := 12, bold: bool := false, italic: bool := false,
                   underline: bool := false): (k: FontSpec)
    ensures MakeFont(k).face == face && MakeFont(k).size == size && MakeFont(k).underline == underline
    ensures MakeFont(k).weight == (if bold then WeightBold else WeightNormal)
    ensures MakeFont(k).style == (if italic then StyleItalic else StyleNormal)
  {
    FontSpec(face, size, bold, italic, underline)
  }

  /** The keyword options of `Text`. */
  datatype TextStyle = TextStyle(
    alignment: Alignment,
    color: ColourRef,
    font: FontRef,
    shadow: Option<ColourRef>,
    maxHeight: Option<int>,
    lineOffset: int,
    borderColor: Option<ColourRef>,
    borderSize: int)

  /** The defaults `Text.__init__` fills in for options not given. */
  function DefaultStyle(): (s: TextStyle)
    ensures s.alignment == Left && s.color == ColourTriple(Rgb(0, 0, 0))
    ensures ResolveFont(Some(s.font)) == Some(MakeFont(FontSpec("", 12, false, false, false)))
    ensures s.shadow == None && s.maxHeight == None && s.lineOffset == 0
    ensures s.borderColor == None && s.borderSize == 0
  {
    TextStyle(Left, ColourTriple(Rgb(0, 0, 0)), FontTuple(FontOptions()), None, None, 0, None, 0)
  }

  /** A constructed `Text`: its caption, its width, the height computed when it
      was built, and its options. */
  datatype TextBox = TextBox(caption: string, width: int, height: int, style: TextStyle)

  /** The font a text is set in. */
  function FontOf(s: TextStyle): Font {
    ResolveFont(Some(s.font)).value
  }

  // ---- lines and height --------------------------------------------------

  /** An empty line is measured and drawn as a single space. */
  function Blanked(ls: seq<string>): (r: seq<string>)
    ensures |r| == |ls|
    ensures forall i :: 0 <= i < |ls| ==> r[i] == (if ls[i] == [] then " " else ls[i])
  {
    seq(|ls|, i requires 0 <= i < |ls| => if ls[i] == [] then " " else ls[i])
  }

  /** `get_lines`: the wrapped caption in font `f`, blank lines as `' '`. */
  function ShownLines(m: Metrics, f: Font, width: int, caption: string): seq<string> {
    Blanked(WrapText(CharWidth(m, f), width, caption))
  }

  /** At least one line is shown, and none is empty. */
  lemma ShownLinesShape(m: Metrics, f: Font, width: int, caption: string)
    ensures |ShownLines(m, f, width, caption)| >= 1
    ensures forall i :: 0 <= i < |ShownLines(m, f, width, caption)| ==> ShownLines(m, f, width, caption)[i] != []
  {
    WrapTextShape(CharWidth(m, f), width, caption);
  }

  /** Sum of the heights of `ls` in font `f`. */
  function LinesHeight(m: Metrics, f: Font, ls: seq<string>): nat {
    if ls == [] then 0 else LinesHeight(m, f, ls[..|ls| - 1]) + m(f, ls[|ls| - 1]).h
  }

  /** A prefix is no taller than the whole. */
  lemma {:induction false} LinesHeightPrefix(m: Metrics, f: Font, ls: seq<string>, i: nat)
    requires i <= |ls|
    ensures LinesHeight(m, f, ls[..i]) <= LinesHeight(m, f, ls)
    decreases |ls|
  {
    if i < |ls| {
      assert ls[..|ls| - 1][..i] == ls[..i];
      LinesHeightPrefix(m, f, ls[..|ls| - 1], i);
    } else {
      assert ls[..i] == ls;
    }
  }

  /** The height `Text.__init__` stores: the height of the shown lines,
      capped by `max_height` when that is set. */
  function TextHeight(m: Metrics, f: Font, width: int, caption: string, maxHeight: Option<int>): (h: int)
    ensures maxHeight.None? ==> h == LinesHeight(m, f, ShownLines(m, f, width, caption))
    ensures maxHeight.Some? ==> h <= maxHeight.value && h <= LinesHeight(m, f, ShownLines(m, f, width, caption))
    ensures maxHeight.Some? ==> h == maxHeight.value || h == LinesHeight(m, f, ShownLines(m, f, width, caption))
  {
    var h := LinesHeight(m, f, ShownLines(m, f, width, caption));
    if maxHeight.Some? && maxHeight.value < h then maxHeight.value else h
  }

  /** Python's `s[k:]`: a negative `k` counts from the end, and a `k` past
      either end is clamped. */
  function PySliceFrom<T>(s: seq<T>, k: int): (r: seq<T>)
    ensures |r| <= |s| && r == s[|s| - |r|..]
    ensures k >= 0 ==> |r| == if k < |s| then |s| - k else 0
    ensures k < 0 ==> |r| == if -k < |s| then -k else |s|
  {
    if k >= 0 then (if k < |s| then s[k..] else [])
    else (if -k < |s| then s[|s| + k..] else s)
  }

  // ---- drawing one line --------------------------------------------------

  /** The x position `draw` gives a line of width `tw`. */
  function AlignX(a: Alignment, width: int, tw: nat, padding: nat): int {
    match a
    case Left => padding
    case Right => width - tw - padding
    case Center => width / 2 - tw / 2
  }

  /** Left lines start `padding` in, right lines end `padding` before the
      right edge, and centred lines are centred to within one pixel (both
      halvings round down). */
  lemma AlignXPlaces(a: Alignment, width: int, tw: nat, padding: nat)
    ensures a == Left ==> AlignX(a, width, tw, padding) == padding
    ensures a == Right ==> AlignX(a, width, tw, padding) + tw + padding == width
    ensures a == Center ==> -1 <= 2 * AlignX(a, width, tw, padding) - (width - tw) <= 1
  {
    if a == Center {
      assert width == 2 * (width / 2) + width % 2;
      assert tw == 2 * (tw / 2) + tw % 2;
    }
  }

  /** The colours and outline size a line is drawn with. */
  datatype Ink = Ink(colour: Colour, shadow: Option<Colour>, border: Option<Colour>, size: int)

  function InkOf(s: TextStyle): Ink {
    Ink(ResolveColour(Some(s.color)).value, ResolveColour(s.shadow), ResolveColour(s.borderColor), s.borderSize)
  }

  /** The outline copies of row `dy`, from column `dx` on: one per `dx` up to
      `p` with `dx * dx + dy * dy <= p * p`. */
  function Row(text: string, x: int, y: int, p: int, dy: int, dx: int): seq<Cmd>
    decreases p + 1 - dx
  {
    if dx > p then []
    else (if dx * dx + dy * dy > p * p then [] else [DrawText(text, x + dx, y + dy)]) + Row(text, x, y, p, dy, dx + 1)
  }

  /** The outline copies of rows `dy` up to `p`, row after row. */
  function Rows(text: string, x: int, y: int, p: int, dy: int): seq<Cmd>
    decreases p + 1 - dy
  {
    if dy > p then [] else Row(text, x, y, p, dy, -p) + Rows(text, x, y, p, dy + 1)
  }

  /** Row `dy` holds exactly the copies at columns `dx..p` inside the disc. */
  lemma {:induction false} RowHas(text: string, x: int, y: int, p: int, dy: int, dx: int, c: Cmd)
    ensures c in Row(text, x, y, p, dy, dx) <==>
      c.DrawText? && c.text == text && c.y == y + dy && dx <= c.x - x <= p && (c.x - x) * (c.x - x) + dy * dy <= p * p
    decreases p + 1 - dx
  {
    if dx <= p {
      RowHas(text, x, y, p, dy, dx + 1, c);
    }
  }

  /** Rows `dy..p` hold exactly the copies at offsets in `[-p, p]` by
      `[dy, p]` inside the disc of radius `p`. */
  lemma {:induction false} RowsHave(text: string, x: int, y: int, p: int, dy: int, c: Cmd)
    ensures c in Rows(text, x, y, p, dy) <==>
      c.DrawText? && c.text == text && -p <= c.x - x <= p && dy <= c.y - y <= p
      && (c.x - x) * (c.x - x) + (c.y - y) * (c.y - y) <= p * p
    decreases p + 1 - dy
  {
    if dy <= p {
      RowHas(text, x, y, p, dy, -p, c);
      RowsHave(text, x, y, p, dy + 1, c);
    }
  }

  /** `draw_text`'s outline: a copy of the text at exactly the offsets
      `(dx, dy)` in `[-p, p]` squared with `dx * dx + dy * dy <= p * p`. */
  lemma BorderOffsets(text: string, x: int, y: int, p: int, dx: int, dy: int)
    ensures DrawText(text, x + dx, y + dy) in Rows(text, x, y, p, -p) <==>
      -p <= dx <= p && -p <= dy <= p && dx * dx + dy * dy <= p * p
  {
    RowsHave(text, x, y, p, -p, DrawText(text, x + dx, y + dy));
  }

  /** `draw_text(dc, text, x, y)`: the shadow, then the outline, then the
      text itself in its colour. */
  function LineCmds(text: string, x: int, y: int, ink: Ink): seq<Cmd> {
    ShadowCmds(text, x, y, ink) + OutlineCmds(text, x, y, ink) + [SetTextForeground(ink.colour), DrawText(text, x, y)]
  }

  /** The text proper is drawn last, over its outline, in its own colour;
      a shadow, when set, is drawn first, offset by the outline size plus
      one. */
  lemma LineCmdsOrder(text: string, x: int, y: int, ink: Ink)
    ensures |LineCmds(text, x, y, ink)| >= 2
    ensures LineCmds(text, x, y, ink)[|LineCmds(text, x, y, ink)| - 2..] == [SetTextForeground(ink.colour), DrawText(text, x, y)]
    ensures ink.shadow.Some? ==>
      LineCmds(text, x, y, ink)[..2] == [SetTextForeground(ink.shadow.value), DrawText(text, x + ink.size + 1, y + ink.size + 1)]
  {
  }

  /** The shadow: the text once more, `size + 1` pixels right and down. */
  function ShadowCmds(text: string, x: int, y: int, ink: Ink): seq<Cmd> {
    if ink.shadow.Some? then [SetTextForeground(ink.shadow.value), DrawText(text, x + ink.size + 1, y + ink.size + 1)] else []
  }

  /** The outline, drawn only when a border colour is set. */
  function OutlineCmds(text: string, x: int, y: int, ink: Ink): seq<Cmd> {
    if ink.border.Some? then [SetTextForeground(ink.border.value)] + Rows(text, x, y, ink.size, -ink.size) else []
  }

  // ---- drawing the block -------------------------------------------------

  /** What the draw loop needs to place lines: box size, alignment, the
      padding (the width of a space) and the ink. */
  datatype Frame = Frame(width: int, height: int, alignment: Alignment, padding: nat, ink: Ink)

  /** The commands the draw loop issues from line `i` on, the next line's top
      being at `y`: it stops at the first line that would cross the bottom. */
  function Placed(m: Metrics, f: Font, fr: Frame, lines: seq<string>, i: nat, y: int): seq<Cmd>
    decreases |lines| - i
  {
    if i >= |lines| then []
    else
      var e := m(f, lines[i]);
      if y + e.h > fr.height then []
      else LineCmds(lines[i], AlignX(fr.alignment, fr.width, e.w, fr.padding), y, fr.ink)
           + Placed(m, f, fr, lines, i + 1, y + e.h)
  }

  /** One turn of the draw loop: a line that fits is drawn, and the next
      goes right below it. */
  lemma PlacedStep(m: Metrics, f: Font, fr: Frame, lines: seq<string>, i: nat, y: int)
    requires i < |lines| && y + m(f, lines[i]).h <= fr.height
    ensures Placed(m, f, fr, lines, i, y)
      == LineCmds(lines[i], AlignX(fr.alignment, fr.width, m(f, lines[i]).w, fr.padding), y, fr.ink)
         + Placed(m, f, fr, lines, i + 1, y + m(f, lines[i]).h)
  {
  }

  /** Every line from `i` on, each right below the previous, none cut off. */
  function AllPlaced(m: Metrics, f: Font, fr: Frame, lines: seq<string>, i: nat, y: int): seq<Cmd>
    decreases |lines| - i
  {
    if i >= |lines| then []
    else
      var e := m(f, lines[i]);
      LineCmds(lines[i], AlignX(fr.alignment, fr.width, e.w, fr.padding), y, fr.ink)
      + AllPlaced(m, f, fr, lines, i + 1, y + e.h)
  }

  /** When the box is as tall as the lines, no line is cut off. */
  lemma {:induction false} PlacedAll(m: Metrics, f: Font, fr: Frame, lines: seq<string>, i: nat)
    requires i <= |lines| && fr.height == LinesHeight(m, f, lines)
    ensures Placed(m, f, fr, lines, i, LinesHeight(m, f, lines[..i])) == AllPlaced(m, f, fr, lines, i, LinesHeight(m, f, lines[..i]))
    decreases |lines| - i
  {
    if i < |lines| {
      assert lines[..i + 1][..i] == lines[..i];
      LinesHeightPrefix(m, f, lines, i + 1);
      PlacedAll(m, f, fr, lines, i + 1);
    }
  }

  /** The draw loop's cut-off: when the first `k` lines fit the box and
      line `k`, if there is one, would cross its bottom, the loop draws
      exactly the first `k` lines, each right below the previous. */
  lemma PlacedCut(m: Metrics, f: Font, fr: Frame, lines: seq<string>, k: nat)
    requires k <= |lines| && LinesHeight(m, f, lines[..k]) <= fr.height
    requires k == |lines| || LinesHeight(m, f, lines[..k + 1]) > fr.height
    ensures Placed(m, f, fr, lines, 0, 0) == AllPlaced(m, f, fr, lines[..k], 0, 0)
  {
    assert lines[..0] == [];
    PlacedPrefix(m, f, fr, lines, k, 0);
  }

  /** The number of lines, from the `i`-th on, that fit a box `height`
      pixels tall before one would cross its bottom. */
  function FittingLines(m: Metrics, f: Font, lines: seq<string>, height: int, i: nat): (k: nat)
    requires i <= |lines| && LinesHeight(m, f, lines[..i]) <= height
    ensures i <= k <= |lines| && LinesHeight(m, f, lines[..k]) <= height
    ensures k == |lines| || LinesHeight(m, f, lines[..k + 1]) > height
    decreases |lines| - i
  {
    if i == |lines| || LinesHeight(m, f, lines[..i + 1]) > height then i
    else FittingLines(m, f, lines, height, i + 1)
  }

  /** `Text.draw` shows exactly the lines after `line_offset` that fit the
      box, counted from the top, each right below the previous. */
  lemma DrawCut(m: Metrics, t: TextBox)
    requires t.height >= 0
    ensures var f := FontOf(t.style);
      var lines := PySliceFrom(ShownLines(m, f, t.width, t.caption), t.style.lineOffset);
      DrawCmds(m, t) == [SetFont(f), SetFont(f)]
        + AllPlaced(m, f, Frame(t.width, t.height, t.style.alignment, m(f, " ").w, InkOf(t.style)),
                    lines[..FittingLines(m, f, lines, t.height, 0)], 0, 0)
  {
    var f := FontOf(t.style);
    var lines := PySliceFrom(ShownLines(m, f, t.width, t.caption), t.style.lineOffset);
    var fr := Frame(t.width, t.height, t.style.alignment, m(f, " ").w, InkOf(t.style));
    assert lines[..0] == [];
    PlacedCut(m, f, fr, lines, FittingLines(m, f, lines, t.height, 0));
  }

  /** `PlacedCut` from line `i` on, the loop's `y` being the height of the
      lines before `i`. */
  lemma {:induction false} PlacedPrefix(m: Metrics, f: Font, fr: Frame, lines: seq<string>, k: nat, i: nat)
    requires i <= k <= |lines| && LinesHeight(m, f, lines[..k]) <= fr.height
    requires k == |lines| || LinesHeight(m, f, lines[..k + 1]) > fr.height
    ensures Placed(m, f, fr, lines, i, LinesHeight(m, f, lines[..i]))
      == AllPlaced(m, f, fr, lines[..k], i, LinesHeight(m, f, lines[..i]))
    decreases k - i
  {
    if i < k {
      PlacedPrefix(m, f, fr, lines, k, i + 1);
      PlacedPrefixStep(m, f, fr, lines, k, i);
    } else {
      PlacedPrefixEnd(m, f, fr, lines, k);
    }
  }

  /** At the cut-off the loop stops, and no line is left to place. */
  lemma PlacedPrefixEnd(m: Metrics, f: Font, fr: Frame, lines: seq<string>, k: nat)
    requires k <= |lines|
    requires k == |lines| || LinesHeight(m, f, lines[..k + 1]) > fr.height
    ensures Placed(m, f, fr, lines, k, LinesHeight(m, f, lines[..k])) == []
    ensures AllPlaced(m, f, fr, lines[..k], k, LinesHeight(m, f, lines[..k])) == []
  {
    if k < |lines| {
      assert lines[..k + 1][..k] == lines[..k];
    }
  }

  /** One line before the cut-off: it fits, and the next starts below it. */
  lemma PlacedPrefixStep(m: Metrics, f: Font, fr: Frame, lines: seq<string>, k: nat, i: nat)
    requires i < k <= |lines| && LinesHeight(m, f, lines[..k]) <= fr.height
    requires Placed(m, f, fr, lines, i + 1, LinesHeight(m, f, lines[..i + 1]))
      == AllPlaced(m, f, fr, lines[..k], i + 1, LinesHeight(m, f, lines[..i + 1]))
    ensures Placed(m, f, fr, lines, i, LinesHeight(m, f, lines[..i]))
      == AllPlaced(m, f, fr, lines[..k], i, LinesHeight(m, f, lines[..i]))
  {
    HeightStep(m, f, lines, i);
    PrefixFits(m, f, lines, k, i + 1, fr.height);
    assert lines[..k][i] == lines[i];
  }

  /** One more line adds its height. */
  lemma HeightStep(m: Metrics, f: Font, lines: seq<string>, i: nat)
    requires i < |lines|
    ensures LinesHeight(m, f, lines[..i + 1]) == LinesHeight(m, f, lines[..i]) + m(f, lines[i]).h
  {
    assert lines[..i + 1][..i] == lines[..i];
  }

  /** A prefix of lines that fit fits too. */
  lemma PrefixFits(m: Metrics, f: Font, lines: seq<string>, k: nat, j: nat, height: int)
    requires j <= k <= |lines| && LinesHeight(m, f, lines[..k]) <= height
    ensures LinesHeight(m, f, lines[..j]) <= height
  {
    assert lines[..k][..j] == lines[..j];
    LinesHeightPrefix(m, f, lines[..k], j);
  }

  /** `Text.draw`: set the font (twice: `draw` and `get_lines` both do), then
      draw the lines after `line_offset` top-down until one would cross the
      bottom of the box. */
  function DrawCmds(m: Metrics, t: TextBox): seq<Cmd> {
    var f := FontOf(t.style);
    var lines := PySliceFrom(ShownLines(m, f, t.width, t.caption), t.style.lineOffset);
    var fr := Frame(t.width, t.height, t.style.alignment, m(f, " ").w, InkOf(t.style));
    [SetFont(f), SetFont(f)] + Placed(m, f, fr, lines, 0, 0)
  }

  /** How a text box is drawn, as a value a container can hold. */
  type Painter = TextBox -> seq<Cmd>

  /** `Text.draw` with text measured by `m`. */
  function TextPainter(m: Metrics): Painter {
    t => DrawCmds(m, t)
  }

  /** A text built without `max_height` and drawn from its first line shows
      every one of its lines: its height is exactly what they need. */
  lemma DrawShowsAllLines(m: Metrics, t: TextBox)
    requires t.style.maxHeight.None? && t.style.lineOffset == 0
    requires t.height == TextHeight(m, FontOf(t.style), t.width, t.caption, t.style.maxHeight)
    ensures var f := FontOf(t.style);
      DrawCmds(m, t) == [SetFont(f), SetFont(f)]
        + AllPlaced(m, f, Frame(t.width, t.height, t.style.alignment, m(f, " ").w, InkOf(t.style)),
                    ShownLines(m, f, t.width, t.caption), 0, 0)
  {
    var f := FontOf(t.style);
    var lines := ShownLines(m, f, t.width, t.caption);
    var fr := Frame(t.width, t.height, t.style.alignment, m(f, " ").w, InkOf(t.style));
    assert PySliceFrom(lines, 0) == lines;
    assert lines[..0] == [];
    PlacedAll(m, f, fr, lines, 0);
  }

  /** Drawing a line only sets colours and draws text. */
  lemma LineInk(text: string, x: int, y: int, ink: Ink, c: Cmd)
    requires c in LineCmds(text, x, y, ink)
    ensures c.SetTextForeground? || c.DrawText?
  {
    var shadow := ShadowCmds(text, x, y, ink);
    var outline := OutlineCmds(text, x, y, ink);
    var last := [SetTextForeground(ink.colour), DrawText(text, x, y)];
    assert c in shadow + outline + last;
    if c in outline {
      OutlineInk(text, x, y, ink, c);
    }
  }

  /** The outline only sets its colour and draws text. */
  lemma OutlineInk(text: string, x: int, y: int, ink: Ink, c: Cmd)
    requires c in OutlineCmds(text, x, y, ink)
    ensures c.SetTextForeground? || c.DrawText?
  {
    if c != SetTextForeground(ink.border.value) {
      assert c in Rows(text, x, y, ink.size, -ink.size);
      RowsDraw(text, x, y, ink.size, -ink.size, c);
    }
  }

  lemma {:induction false} RowDraw(text: string, x: int, y: int, p: int, dy: int, dx: int, c: Cmd)
    requires c in Row(text, x, y, p, dy, dx)
    ensures c.DrawText?
    decreases p + 1 - dx
  {
    if dx <= p && c !in (if dx * dx + dy * dy > p * p then [] else [DrawText(text, x + dx, y + dy)]) {
      RowDraw(text, x, y, p, dy, dx + 1, c);
    }
  }

  lemma {:induction false} RowsDraw(text: string, x: int, y: int, p: int, dy: int, c: Cmd)
    requires c in Rows(text, x, y, p, dy)
    ensures c.DrawText?
    decreases p + 1 - dy
  {
    if dy <= p {
      if c in Row(text, x, y, p, dy, -p) {
        RowDraw(text, x, y, p, dy, -p, c);
      } else {
        RowsDraw(text, x, y, p, dy + 1, c);
      }
    }
  }

  lemma {:induction false} PlacedInk(m: Metrics, f: Font, fr: Frame, lines: seq<string>, i: nat, y: int, c: Cmd)
    requires c in Placed(m, f, fr, lines, i, y)
    ensures c.SetTextForeground? || c.DrawText?
    decreases |lines| - i
  {
    if i < |lines| && y + m(f, lines[i]).h <= fr.height {
      var x := AlignX(fr.alignment, fr.width, m(f, lines[i]).w, fr.padding);
      PlacedStep(m, f, fr, lines, i, y);
      var here := LineCmds(lines[i], x, y, fr.ink);
      var rest := Placed(m, f, fr, lines, i + 1, y + m(f, lines[i]).h);
      assert c in here + rest;
      if c in here {
        LineInk(lines[i], x, y, fr.ink, c);
      } else {
        PlacedInk(m, f, fr, lines, i + 1, y + m(f, lines[i]).h, c);
      }
    }
  }

  /** `Text.draw` only sets fonts and colours and draws text: it never moves
      the origin or touches the clipping region. */
  lemma DrawCmdsInk(m: Metrics, t: TextBox, c: Cmd)
    requires c in DrawCmds(m, t)
    ensures c.SetFont? || c.SetTextForeground? || c.DrawText?
  {
    var f := FontOf(t.style);
    var lines := PySliceFrom(ShownLines(m, f, t.width, t.caption), t.style.lineOffset);
    var fr := Frame(t.width, t.height, t.style.alignment, m(f, " ").w, InkOf(t.style));
    if c in Placed(m, f, fr, lines, 0, 0) {
      PlacedInk(m, f, fr, lines, 0, 0, c);
    }
  }

  // ---- the imperative operations -----------------------------------------

  /** `get_lines(dc)`: set the text's font on `dc`, wrap the caption in it and
      show blank lines as a space. */
  method GetLines(dc: DrawContext, cache: Cache, caption: string, width: int, font: FontRef) returns (lines: seq<string>)
    requires cache.Valid()
    modifies dc, cache
    ensures cache.Valid()
    ensures Grows(old(cache.entries), cache.entries)
    ensures dc.font == ResolveFont(Some(font)).value
    ensures dc.trace == old(dc.trace) + [SetFont(dc.font)]
    ensures lines == ShownLines(dc.metrics, dc.font, width, caption)
  {
    var f := cache.GetFont(Some(font));
    dc.Emit(SetFont(f.value));
    var wrapped := WordWrap(CharWidth(dc.metrics, dc.font), width, caption);
    lines := Blanked(wrapped);
  }

  /** `compute_height`: the summed heights of the shown lines, measured on a
      scratch device context. */
  method ComputeHeight(m: Metrics, cache: Cache, caption: string, width: int, font: FontRef) returns (h: nat)
    requires cache.Valid()
    modifies cache
    ensures cache.Valid()
    ensures Grows(old(cache.entries), cache.entries)
    ensures h == LinesHeight(m, ResolveFont(Some(font)).value, ShownLines(m, ResolveFont(Some(font)).value, width, caption))
  {
    var dc := new DrawContext(m);
    var lines := GetLines(dc, cache, caption, width, font);
    h := SumHeights(dc, lines);
  }

  /** `sum(dc.GetTextExtent(line)[1] for line in lines)`. */
  method SumHeights(dc: DrawContext, lines: seq<string>) returns (h: nat)
    ensures h == LinesHeight(dc.metrics, dc.font, lines)
  {
    h := 0;
    for i := 0 to |lines|
      invariant h == LinesHeight(dc.metrics, dc.font, lines[..i])
    {
      assert lines[..i + 1][..i] == lines[..i];
      h := h + dc.Extent(lines[i]).h;
    }
    assert lines[..|lines|] == lines;
  }

  /** `Text.__init__`: fill in the defaults (done by the caller through
      `DefaultStyle`), compute the height and cap it by `max_height`. */
  method NewText(m: Metrics, cache: Cache, caption: string, width: int, style: TextStyle) returns (t: TextBox)
    requires cache.Valid()
    modifies cache
    ensures cache.Valid()
    ensures Grows(old(cache.entries), cache.entries)
    ensures t == TextBox(caption, width, TextHeight(m, FontOf(style), width, caption, style.maxHeight), style)
  {
    var height := ComputeHeight(m, cache, caption, width, style.font);
    if style.maxHeight.Some? {
      height := if height <= style.maxHeight.value then height else style.maxHeight.value;
    }
    t := TextBox(caption, width, height, style);
  }

  /** `draw_text(dc, text, x, y)`: look the three colours up, then draw. */
  method PaintText(dc: DrawContext, cache: Cache, style: TextStyle, text: string, x: int, y: int)
    requires cache.Valid()
    modifies dc, cache
    ensures cache.Valid()
    ensures Grows(old(cache.entries), cache.entries)
    ensures dc.font == old(dc.font)
    ensures dc.trace == old(dc.trace) + LineCmds(text, x, y, InkOf(style))
  {
    var color := cache.GetColor(Some(style.color));
    var shadowColor := cache.GetColor(style.shadow);
    var borderColor := cache.GetColor(style.borderColor);
    PaintLine(dc, text, x, y, Ink(color.value, shadowColor, borderColor, style.borderSize));
  }

  /** The drawing half of `draw_text`, once its colours are known. */
  method PaintLine(dc: DrawContext, text: string, x: int, y: int, ink: Ink)
    modifies dc
    ensures dc.font == old(dc.font)
    ensures dc.trace == old(dc.trace) + LineCmds(text, x, y, ink)
  {
    ghost var start := dc.trace;
    PaintShadow(dc, text, x, y, ink);
    ghost var afterShadow := dc.trace;
    PaintBorder(dc, text, x, y, ink);
    ghost var afterBorder := dc.trace;
    dc.Emit(SetTextForeground(ink.colour));
    dc.Emit(DrawText(text, x, y));
    assert dc.trace == afterBorder + [SetTextForeground(ink.colour), DrawText(text, x, y)];
    assert afterBorder == start + ShadowCmds(text, x, y, ink) + OutlineCmds(text, x, y, ink);
  }

  /** The shadow step of `draw_text`. */
  method PaintShadow(dc: DrawContext, text: string, x: int, y: int, ink: Ink)
    modifies dc
    ensures dc.font == old(dc.font)
    ensures dc.trace == old(dc.trace) + ShadowCmds(text, x, y, ink)
  {
    if ink.shadow.Some? {
      dc.Emit(SetTextForeground(ink.shadow.value));
      dc.Emit(DrawText(text, x + ink.size + 1, y + ink.size + 1));
    }
  }

  /** The outline step of `draw_text`, taken only when a border colour is set. */
  method PaintBorder(dc: DrawContext, text: string, x: int, y: int, ink: Ink)
    modifies dc
    ensures dc.font == old(dc.font)
    ensures dc.trace == old(dc.trace) + OutlineCmds(text, x, y, ink)
  {
    if ink.border.Some? {
      dc.Emit(SetTextForeground(ink.border.value));
      PaintOutline(dc, text, x, y, ink.size);
      AppendAssoc(old(dc.trace), [SetTextForeground(ink.border.value)], Rows(text, x, y, ink.size, -ink.size));
    }
  }

  lemma AppendAssoc(a: seq<Cmd>, b: seq<Cmd>, c: seq<Cmd>)
    ensures a + (b + c) == a + b + c
  {
  }

  /** The outline loops of `draw_text`: rows `-p..p`, and in each row the
      columns `-p..p` inside the disc of radius `p`. */
  method PaintOutline(dc: DrawContext, text: string, x: int, y: int, p: int)
    modifies dc
    ensures dc.font == old(dc.font)
    ensures dc.trace == old(dc.trace) + Rows(text, x, y, p, -p)
  {
    var dy := -p;
    while dy < p + 1
      invariant dc.font == old(dc.font)
      invariant dc.trace + Rows(text, x, y, p, dy) == old(dc.trace) + Rows(text, x, y, p, -p)
      decreases p + 1 - dy
    {
      assert Rows(text, x, y, p, dy) == Row(text, x, y, p, dy, -p) + Rows(text, x, y, p, dy + 1);
      ghost var before := dc.trace;
      PaintRow(dc, text, x, y, p, dy);
      AppendAssoc(before, Row(text, x, y, p, dy, -p), Rows(text, x, y, p, dy + 1));
      dy := dy + 1;
    }
  }

  /** The inner outline loop: row `dy`, columns `-p..p`, keeping those
      inside the disc of radius `p`. */
  method PaintRow(dc: DrawContext, text: string, x: int, y: int, p: int, dy: int)
    modifies dc
    ensures dc.font == old(dc.font)
    ensures dc.trace == old(dc.trace) + Row(text, x, y, p, dy, -p)
  {
    var dx := -p;
    while dx < p + 1
      invariant dc.font == old(dc.font)
      invariant dc.trace + Row(text, x, y, p, dy, dx) == old(dc.trace) + Row(text, x, y, p, dy, -p)
      decreases p + 1 - dx
    {
      if dx * dx + dy * dy > p * p {
        assert Row(text, x, y, p, dy, dx) == Row(text, x, y, p, dy, dx + 1);
        dx := dx + 1;
        continue;
      }
      assert Row(text, x, y, p, dy, dx) == [DrawText(text, x + dx, y + dy)] + Row(text, x, y, p, dy, dx + 1);
      ghost var before := dc.trace;
      dc.Emit(DrawText(text, x + dx, y + dy));
      AppendAssoc(before, [DrawText(text, x + dx, y + dy)], Row(text, x, y, p, dy, dx + 1));
      dx := dx + 1;
    }
  }

  /** `Text.draw(dc)`. */
  method Draw(dc: DrawContext, cache: Cache, t: TextBox)
    requires cache.Valid()
    modifies dc, cache
    ensures cache.Valid()
    ensures Grows(old(cache.entries), cache.entries)
    ensures dc.trace == old(dc.trace) + DrawCmds(dc.metrics, t)
  {
    var f := cache.GetFont(Some(t.style.font));
    dc.Emit(SetFont(f.value));
    var lines := GetLines(dc, cache, t.caption, t.width, t.style.font);
    lines := PySliceFrom(lines, t.style.lineOffset);
    var padding := dc.Extent(" ").w;
    assert dc.trace == old(dc.trace) + [SetFont(f.value), SetFont(f.value)];
    ghost var fr := Frame(t.width, t.height, t.style.alignment, padding, InkOf(t.style));
    DrawCmdsUnfold(dc.metrics, t, f.value, lines, fr);
    DrawLines(dc, cache, t, lines, padding);
    AppendAssoc(old(dc.trace), [SetFont(f.value), SetFont(f.value)], Placed(dc.metrics, f.value, fr, lines, 0, 0));
  }

  lemma DrawCmdsUnfold(m: Metrics, t: TextBox, f: Font, lines: seq<string>, fr: Frame)
    requires f == FontOf(t.style)
    requires lines == PySliceFrom(ShownLines(m, f, t.width, t.caption), t.style.lineOffset)
    requires fr == Frame(t.width, t.height, t.style.alignment, m(f, " ").w, InkOf(t.style))
    ensures DrawCmds(m, t) == [SetFont(f), SetFont(f)] + Placed(m, f, fr, lines, 0, 0)
  {
  }

  /** The loop of `Text.draw`: the lines top-down, each aligned in the box,
      until one would cross its bottom. */
  method DrawLines(dc: DrawContext, cache: Cache, t: TextBox, lines: seq<string>, padding: nat)
    requires cache.Valid()
    modifies dc, cache
    ensures cache.Valid() && dc.font == old(dc.font)
    ensures Grows(old(cache.entries), cache.entries)
    ensures dc.trace == old(dc.trace)
      + Placed(dc.metrics, dc.font, Frame(t.width, t.height, t.style.alignment, padding, InkOf(t.style)), lines, 0, 0)
  {
    ghost var fr := Frame(t.width, t.height, t.style.alignment, padding, InkOf(t.style));
    ghost var goal := dc.trace + Placed(dc.metrics, dc.font, fr, lines, 0, 0);
    var y := 0;
    var i := 0;
    while i < |lines|
      invariant i <= |lines|
      invariant dc.font == old(dc.font) && cache.Valid()
      invariant Grows(old(cache.entries), cache.entries)
      invariant dc.trace + Placed(dc.metrics, dc.font, fr, lines, i, y) == goal
      decreases |lines| - i
    {
      var e := dc.Extent(lines[i]);
      if y + e.h > t.height {
        break;
      }
      var x := LineX(t.style.alignment, t.width, e.w, padding);
      PlacedStep(dc.metrics, dc.font, fr, lines, i, y);
      ghost var before := dc.trace;
      PaintText(dc, cache, t.style, lines[i], x, y);
      AppendAssoc(before, LineCmds(lines[i], x, y, fr.ink), Placed(dc.metrics, dc.font, fr, lines, i + 1, y + e.h));
      y := y + e.h;
      i := i + 1;
    }
  }

  /** The left edge `Text.draw` gives a line of width `tw`. */
  method LineX(a: Alignment, width: int, tw: nat, padding: nat) returns (x: int)
    ensures x == AlignX(a, width, tw, padding)
  {
    if a == Left {
      x := padding;
    } else if a == Right {
      x := width - tw - padding;
    } else {
      x := width / 2 - tw / 2;
    }
  }
}

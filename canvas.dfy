/** A device context (`wx.DC`) seen as the list of commands drawn on it.

    Rasterisation is not modelled: the program's drawing is the trace of
    calls it makes, in order, with their arguments. Text measurement
    (`GetTextExtent`) is an abstract function of the current font and the
    string. */
module Canvas {
  import opened Resources

  /** One call on the device context. */
  datatype Cmd =
    | SetFont(font: Font)
    | SetTextForeground(colour: Colour)
    | DrawText(text: string, x: int, y: int)
    | DrawBitmap(bitmap: Bitmap, x: int, y: int, masked: bool)
    | SetDeviceOrigin(ox: real, oy: real)
    | SetClippingRegion(cx: int, cy: int, cw: int, ch: int)
    | DestroyClippingRegion

  /** `GetTextExtent`: width and height of a string in pixels. */
  datatype Extent = Extent(w: nat, h: nat)

  /** Text metrics: the extent of a string drawn in a font. */
  type Metrics = (Font, string) -> Extent

  /** The font a fresh memory device context starts with. */
  const DefaultFont: Font := Font(12, FamilyDefault, StyleNormal, WeightNormal, false, "")

  /** Width of one character in a font, as `word_wrap` looks it up. */
  function CharWidth(m: Metrics, f: Font): char -> nat {
    c => m(f, [c]).w
  }

  // ---- device state ------------------------------------------------------

  /** A clipping rectangle. */
  datatype Rect = Rect(x: int, y: int, w: int, h: int)

  /** What commands leave behind on a device context apart from ink: its
      origin and its clipping region. */
  datatype DcState = DcState(ox: real, oy: real, clip: Option<Rect>)

  /** The untouched state of a fresh context. */
  const Pristine: DcState := DcState(0.0, 0.0, None)

  /** The effect of one command on that state (a region set while another
      is active replaces it here). */
  function Apply(s: DcState, c: Cmd): DcState {
    match c
    case SetDeviceOrigin(x, y) => DcState(x, y, s.clip)
    case SetClippingRegion(x, y, w, h) => DcState(s.ox, s.oy, Some(Rect(x, y, w, h)))
    case DestroyClippingRegion => DcState(s.ox, s.oy, None)
    case _ => s
  }

  /** The state after a sequence of commands. */
  function Run(s: DcState, cmds: seq<Cmd>): DcState {
    if cmds == [] then s else Apply(Run(s, cmds[..|cmds| - 1]), cmds[|cmds| - 1])
  }

  lemma {:induction false} RunAppend(s: DcState, a: seq<Cmd>, b: seq<Cmd>)
    ensures Run(s, a + b) == Run(Run(s, a), b)
    decreases |b|
  {
    if b == [] {
      assert a + b == a;
    } else {
      assert (a + b)[..|a + b| - 1] == a + b[..|b| - 1];
      RunAppend(s, a, b[..|b| - 1]);
    }
  }

  /** A command that only inks: it leaves origin and clipping alone. */
  predicate Inert(c: Cmd) {
    c.SetFont? || c.SetTextForeground? || c.DrawText? || c.DrawBitmap?
  }

  lemma {:induction false} RunInert(s: DcState, cmds: seq<Cmd>)
    requires forall i :: 0 <= i < |cmds| ==> Inert(cmds[i])
    ensures Run(s, cmds) == s
  {
    if cmds != [] {
      RunInert(s, cmds[..|cmds| - 1]);
    }
  }

  /** `wx.MemoryDC`: a current font and the commands drawn so far. */
  class DrawContext {
    const metrics: Metrics
    var font: Font
    var trace: seq<Cmd>

    constructor (metrics: Metrics)
      ensures this.metrics == metrics && font == DefaultFont && trace == []
    {
      this.metrics := metrics;
      font := DefaultFont;
      trace := [];
    }

    /** `GetTextExtent(s)` in the current font. */
    function Extent(s: string): Extent
      reads this
    {
      metrics(font, s)
    }

    /** Issue one command: it is appended to the trace, and `SetFont`
        changes the current font. */
    method Emit(c: Cmd)
      modifies this
      ensures trace == old(trace) + [c]
      ensures font == (if c.SetFont? then c.font else old(font))
    {
      trace := trace + [c];
      if c.SetFont? {
        font := c.font;
      }
    }
  }
}

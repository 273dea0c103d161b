/** The control tree of core.py: a `Control` is placed on a canvas by a
    position and an anchor, and a `Page` renders its controls in the order
    they were added, each with the device origin moved to its corner and
    drawing clipped to its size. */
module Layout {
  import opened Resources
  import opened Canvas
  import opened TextBlock

  /** A position, anchor or offset: coordinates may be fractional (an anchor
      of `0.5` centres a control). */
  datatype Point = Point(x: real, y: real)

  /** A width and height in pixels. */
  datatype Size = Size(w: int, h: int)

  /** `get_computed_position(size)`: a negative coordinate counts back from
      the far edge of the canvas, and the control is then shifted so that
      its anchor point (a fraction of its own size) lands there. */
  function ComputedPosition(canvas: Size, position: Point, anchor: Point, size: Size): Point {
    var t := Target(canvas, position);
    Point(t.x - size.w as real * anchor.x, t.y - size.h as real * anchor.y)
  }

  /** The point a position designates on the canvas. */
  function Target(canvas: Size, position: Point): Point {
    Point(if position.x < 0.0 then canvas.w as real + position.x else position.x,
          if position.y < 0.0 then canvas.h as real + position.y else position.y)
  }

  /** The anchor point of the control sits `position` from the near edge,
      or `-position` from the far edge when that is negative. */
  lemma AnchorOnTarget(canvas: Size, position: Point, anchor: Point, size: Size)
    ensures var r := ComputedPosition(canvas, position, anchor, size);
      && (position.x >= 0.0 ==> r.x + size.w as real * anchor.x == position.x)
      && (position.x < 0.0 ==> canvas.w as real - (r.x + size.w as real * anchor.x) == -position.x)
      && (position.y >= 0.0 ==> r.y + size.h as real * anchor.y == position.y)
      && (position.y < 0.0 ==> canvas.h as real - (r.y + size.h as real * anchor.y) == -position.y)
  {
  }

  /** A 30 by 20 control anchored at its bottom right corner, 10 pixels in
      from the bottom right corner of a 400 by 300 canvas. */
  lemma ComputedPositionExample()
    ensures ComputedPosition(Size(400, 300), Point(-10.0, -10.0), Point(1.0, 1.0), Size(30, 20)) == Point(360.0, 270.0)
  {
  }

  /** With an anchor inside the unit square and a non-negative size, the
      target point lies inside the placed control. */
  lemma TargetInsideControl(canvas: Size, position: Point, anchor: Point, size: Size)
    requires 0.0 <= anchor.x <= 1.0 && 0.0 <= anchor.y <= 1.0 && size.w >= 0 && size.h >= 0
    ensures ComputedPosition(canvas, position, anchor, size).x <= Target(canvas, position).x
              <= ComputedPosition(canvas, position, anchor, size).x + size.w as real
    ensures ComputedPosition(canvas, position, anchor, size).y <= Target(canvas, position).y
              <= ComputedPosition(canvas, position, anchor, size).y + size.h as real
  {
    var t := Target(canvas, position);
    var r := ComputedPosition(canvas, position, anchor, size);
    AxisBetween(t.x, size.w as real, anchor.x, r.x);
    AxisBetween(t.y, size.h as real, anchor.y, r.y);
  }

  /** `AxisInside` with the shifted start given a name. */
  lemma AxisBetween(t: real, w: real, a: real, r: real)
    requires w >= 0.0 && 0.0 <= a <= 1.0 && r == t - w * a
    ensures r <= t <= r + w
  {
    AxisInside(t, w, a);
  }

  /** A non-negative position does not depend on the canvas size; a
      negative one moves with the far edge. */
  lemma PositionCanvas(canvas: Size, other: Size, position: Point, anchor: Point, size: Size)
    ensures position.x >= 0.0 && position.y >= 0.0 ==>
      ComputedPosition(canvas, position, anchor, size) == ComputedPosition(other, position, anchor, size)
    ensures position.x < 0.0 ==>
      ComputedPosition(other, position, anchor, size).x - ComputedPosition(canvas, position, anchor, size).x
        == (other.w - canvas.w) as real
  {
    if position.x >= 0.0 && position.y >= 0.0 {
      assert Target(other, position) == Target(canvas, position);
    }
  }

  /** Along one axis: shifting `t` back by the fraction `a` of a length `w`
      leaves `t` within `w` of the new start. */
  lemma AxisInside(t: real, w: real, a: real)
    requires w >= 0.0 && 0.0 <= a <= 1.0
    ensures t - w * a <= t <= t - w * a + w
  {
    ScaleBetween(w, a);
  }

  lemma ScaleBetween(w: real, a: real)
    requires w >= 0.0 && 0.0 <= a <= 1.0
    ensures 0.0 <= w * a <= w
  {
    assert w * (1.0 - a) >= 0.0;
  }

  // ---- controls ----------------------------------------------------------

  /** What a control shows: a `Bitmap` (by reference) or a `Text`. */
  datatype Node = Picture(bitmap: BitmapRef) | Words(box: TextBox)

  /** `get_size()`: a bitmap's size (loading it may fail), or the text's
      width and computed height. */
  function NodeSize(io: Loader, n: Node): (r: Result<Size>)
    ensures r.Failure? <==> n.Picture? && ResolveBitmap(io, Some(n.bitmap)).Failure?
    ensures n.Words? ==> r == Ok(Size(n.box.width, n.box.height))
    ensures n.Picture? && n.bitmap.BitmapValue? ==> r == Ok(Size(n.bitmap.bitmap.width, n.bitmap.bitmap.height))
    ensures n.Picture? && n.bitmap.BitmapPath? && Load(io, n.bitmap.path).Some? ==>
      r == Ok(Size(Load(io, n.bitmap.path).value.width, Load(io, n.bitmap.path).value.height))
  {
    match n
    case Picture(ref) =>
      var b := ResolveBitmap(io, Some(ref));
      if b.Failure? then Failure else Ok(Size(b.value.value.width, b.value.value.height))
    case Words(t) => Ok(Size(t.width, t.height))
  }

  /** `draw(dc)`: a bitmap is drawn at the origin with its mask; a text as
      `Text.draw` draws it. */
  function NodeCmds(paint: Painter, io: Loader, n: Node): seq<Cmd> {
    match n
    case Picture(ref) =>
      var b := ResolveBitmap(io, Some(ref));
      if b.Failure? then [] else [DrawBitmap(b.value.value, 0, 0, true)]
    case Words(t) => paint(t)
  }

  /** A control's state as rendering reads it. */
  datatype ControlState = ControlState(position: Point, anchor: Point, node: Node)

  /** `render(dc, size, offset)`: move the origin to the control's corner,
      clip to its size, draw, then undo both; the exception of a failed
      bitmap load comes before anything is drawn. */
  function ControlCmds(paint: Painter, io: Loader, canvas: Size, offset: Point, v: ControlState): Result<seq<Cmd>> {
    var size := NodeSize(io, v.node);
    if size.Failure? then Failure
    else
      var p := ComputedPosition(canvas, v.position, v.anchor, size.value);
      Ok([SetDeviceOrigin(p.x + offset.x, p.y + offset.y), SetClippingRegion(0, 0, size.value.w, size.value.h)]
         + NodeCmds(paint, io, v.node)
         + [DestroyClippingRegion, SetDeviceOrigin(0.0, 0.0)])
  }

  /** A painter whose text drawing only inks. */
  ghost predicate InertPainter(paint: Painter) {
    forall t, c :: c in paint(t) ==> Inert(c)
  }

  lemma TextPainterInert(m: Metrics)
    ensures InertPainter(TextPainter(m))
  {
    forall t, c | c in TextPainter(m)(t)
      ensures Inert(c)
    {
      DrawCmdsInk(m, t, c);
    }
  }

  lemma NodeInert(paint: Painter, io: Loader, n: Node)
    requires InertPainter(paint)
    ensures forall i :: 0 <= i < |NodeCmds(paint, io, n)| ==> Inert(NodeCmds(paint, io, n)[i])
  {
    forall i | 0 <= i < |NodeCmds(paint, io, n)|
      ensures Inert(NodeCmds(paint, io, n)[i])
    {
      assert NodeCmds(paint, io, n)[i] in NodeCmds(paint, io, n);
    }
  }

  /** A control draws with the origin at its computed corner (plus the
      offset) and clipped to its own size, and afterwards leaves the device
      context pristine, whatever state it found it in. */
  lemma ControlBracketed(paint: Painter, io: Loader, canvas: Size, offset: Point, v: ControlState,
                         size: Size, p: Point, s: DcState, k: nat)
    requires InertPainter(paint)
    requires NodeSize(io, v.node) == Ok(size) && p == ComputedPosition(canvas, v.position, v.anchor, size)
    requires k <= |NodeCmds(paint, io, v.node)|
    ensures ControlCmds(paint, io, canvas, offset, v).Ok?
    ensures Run(s, ControlCmds(paint, io, canvas, offset, v).value[..2 + k])
      == DcState(p.x + offset.x, p.y + offset.y, Some(Rect(0, 0, size.w, size.h)))
    ensures Run(s, ControlCmds(paint, io, canvas, offset, v).value) == Pristine
  {
    var head := [SetDeviceOrigin(p.x + offset.x, p.y + offset.y), SetClippingRegion(0, 0, size.w, size.h)];
    var tail := [DestroyClippingRegion, SetDeviceOrigin(0.0, 0.0)];
    var draw := NodeCmds(paint, io, v.node);
    ControlCmdsUnfold(paint, io, canvas, offset, v, size, p, head, tail);
    var cmds := head + draw + tail;
    NodeInert(paint, io, v.node);
    assert head[..1] == [head[0]] && head[..0] == [];
    assert Run(s, head) == DcState(p.x + offset.x, p.y + offset.y, Some(Rect(0, 0, size.w, size.h)));
    assert cmds[..2 + k] == head + draw[..k];
    RunAppend(s, head, draw[..k]);
    RunInert(Run(s, head), draw[..k]);
    assert draw[..|draw|] == draw;
    RunAppend(s, head + draw, tail);
    assert tail[..1] == [tail[0]] && tail[..0] == [];
  }

  /** `Control`: a position and an anchor (both `(0, 0)` unless given) and
      what it shows. */
  class Control {
    var position: Point
    var anchor: Point
    const node: Node

    constructor (node: Node, position: Option<Point>, anchor: Option<Point>)
      ensures this.node == node
      ensures this.position == (if position.Some? then position.value else Point(0.0, 0.0))
      ensures this.anchor == (if anchor.Some? then anchor.value else Point(0.0, 0.0))
    {
      this.node := node;
      this.position := if position.Some? then position.value else Point(0.0, 0.0);
      this.anchor := if anchor.Some? then anchor.value else Point(0.0, 0.0);
    }

    function State(): ControlState
      reads this
    {
      ControlState(position, anchor, node)
    }

    /** `get_size()`. */
    method GetSize(cache: Cache) returns (r: Result<Size>)
      requires cache.Valid()
      modifies cache
      ensures cache.Valid()
      ensures Grows(old(cache.entries), cache.entries)
      ensures r == NodeSize(cache.io, node)
    {
      match node
      case Picture(ref) =>
        var b := cache.GetBitmap(Some(ref));
        if b.Failure? {
          return Failure;
        }
        return Ok(Size(b.value.value.width, b.value.value.height));
      case Words(t) =>
        return Ok(Size(t.width, t.height));
    }

    /** `get_computed_position(size)`. */
    method GetComputedPosition(cache: Cache, canvas: Size) returns (r: Result<Point>)
      requires cache.Valid()
      modifies cache
      ensures cache.Valid()
      ensures Grows(old(cache.entries), cache.entries)
      ensures NodeSize(cache.io, node).Failure? ==> r.Failure?
      ensures NodeSize(cache.io, node).Ok? ==>
        r == Ok(ComputedPosition(canvas, position, anchor, NodeSize(cache.io, node).value))
    {
      var size := GetSize(cache);
      if size.Failure? {
        return Failure;
      }
      var x := if position.x < 0.0 then canvas.w as real + position.x else position.x;
      var y := if position.y < 0.0 then canvas.h as real + position.y else position.y;
      x := x - size.value.w as real * anchor.x;
      y := y - size.value.h as real * anchor.y;
      assert size.value == NodeSize(cache.io, node).value;
      assert x == Target(canvas, position).x - size.value.w as real * anchor.x;
      assert Point(x, y) == ComputedPosition(canvas, position, anchor, size.value);
      return Ok(Point(x, y));
    }

    /** `draw(dc)`; `ok` is false where the bitmap fails to load. */
    method Draw(dc: DrawContext, cache: Cache) returns (ok: bool)
      requires cache.Valid()
      modifies dc, cache
      ensures cache.Valid()
      ensures Grows(old(cache.entries), cache.entries)
      ensures ok == NodeSize(cache.io, node).Ok?
      ensures dc.trace == old(dc.trace) + NodeCmds(TextPainter(dc.metrics), cache.io, node)
    {
      match node
      case Picture(ref) =>
        var b := cache.GetBitmap(Some(ref));
        if b.Failure? {
          return false;
        }
        dc.Emit(DrawBitmap(b.value.value, 0, 0, true));
        return true;
      case Words(t) =>
        TextBlock.Draw(dc, cache, t);
        assert TextPainter(dc.metrics)(t) == DrawCmds(dc.metrics, t);
        return true;
    }

    /** `render(dc, size, offset)`: on failure nothing has been drawn. */
    method Render(dc: DrawContext, cache: Cache, canvas: Size, offset: Point) returns (ok: bool)
      requires cache.Valid()
      modifies dc, cache
      ensures cache.Valid()
      ensures Grows(old(cache.entries), cache.entries)
      ensures ok == ControlCmds(TextPainter(dc.metrics), cache.io, canvas, offset, State()).Ok?
      ensures ok ==> dc.trace == old(dc.trace) + ControlCmds(TextPainter(dc.metrics), cache.io, canvas, offset, State()).value
      ensures !ok ==> dc.trace == old(dc.trace)
    {
      var p := GetComputedPosition(cache, canvas);
      if p.Failure? {
        return false;
      }
      var size := GetSize(cache);
      ghost var head := [SetDeviceOrigin(p.value.x + offset.x, p.value.y + offset.y), SetClippingRegion(0, 0, size.value.w, size.value.h)];
      ghost var tail := [DestroyClippingRegion, SetDeviceOrigin(0.0, 0.0)];
      ControlCmdsUnfold(TextPainter(dc.metrics), cache.io, canvas, offset, State(), size.value, p.value, head, tail);
      dc.Emit(SetDeviceOrigin(p.value.x + offset.x, p.value.y + offset.y));
      dc.Emit(SetClippingRegion(0, 0, size.value.w, size.value.h));
      assert dc.trace == old(dc.trace) + head;
      ok := Draw(dc, cache);
      ghost var drawn := dc.trace;
      dc.Emit(DestroyClippingRegion);
      dc.Emit(SetDeviceOrigin(0.0, 0.0));
      assert dc.trace == drawn + tail;
      Assoc3(old(dc.trace), head, NodeCmds(TextPainter(dc.metrics), cache.io, node), tail);
    }
  }

  lemma ControlCmdsUnfold(paint: Painter, io: Loader, canvas: Size, offset: Point, v: ControlState, size: Size,
                          p: Point, head: seq<Cmd>, tail: seq<Cmd>)
    requires NodeSize(io, v.node) == Ok(size) && p == ComputedPosition(canvas, v.position, v.anchor, size)
    requires head == [SetDeviceOrigin(p.x + offset.x, p.y + offset.y), SetClippingRegion(0, 0, size.w, size.h)]
    requires tail == [DestroyClippingRegion, SetDeviceOrigin(0.0, 0.0)]
    ensures ControlCmds(paint, io, canvas, offset, v) == Ok(head + NodeCmds(paint, io, v.node) + tail)
  {
    var draw := NodeCmds(paint, io, v.node);
    assert ControlCmds(paint, io, canvas, offset, v)
      == Ok([SetDeviceOrigin(p.x + offset.x, p.y + offset.y), SetClippingRegion(0, 0, size.w, size.h)] + draw
            + [DestroyClippingRegion, SetDeviceOrigin(0.0, 0.0)]);
  }

  lemma Assoc3(t: seq<Cmd>, a: seq<Cmd>, b: seq<Cmd>, c: seq<Cmd>)
    ensures t + a + b + c == t + (a + b + c)
  {
  }

  // ---- pages -------------------------------------------------------------

  /** The commands of a page rendering the controls `vs` in order, and
      whether it got through them all: it stops at the first control whose
      rendering fails. */
  datatype Outcome = Outcome(cmds: seq<Cmd>, ok: bool)

  function PageCmds(paint: Painter, io: Loader, canvas: Size, offset: Point, vs: seq<ControlState>): Outcome {
    if vs == [] then Outcome([], true)
    else
      var prev := PageCmds(paint, io, canvas, offset, vs[..|vs| - 1]);
      if !prev.ok then prev
      else
        var last := ControlCmds(paint, io, canvas, offset, vs[|vs| - 1]);
        if last.Failure? then Outcome(prev.cmds, false) else Outcome(prev.cmds + last.value, true)
  }

  /** The views of a list of controls. */
  function ViewsOf(cs: seq<Control>): (vs: seq<ControlState>)
    reads cs
    ensures |vs| == |cs| && forall i :: 0 <= i < |cs| ==> vs[i] == cs[i].State()
  {
    if cs == [] then [] else ViewsOf(cs[..|cs| - 1]) + [cs[|cs| - 1].State()]
  }

  /** `Page`: the controls in the order they were added. */
  class Page {
    var controls: seq<Control>

    constructor ()
      ensures controls == []
    {
      controls := [];
    }

    /** `add(control, position, anchor)`: a given position or anchor
        replaces the control's own; the control goes last. */
    method Add(c: Control, position: Option<Point>, anchor: Option<Point>)
      modifies this, c
      ensures controls == old(controls) + [c]
      ensures c.position == (if position.Some? then position.value else old(c.position))
      ensures c.anchor == (if anchor.Some? then anchor.value else old(c.anchor))
    {
      if position.Some? {
        c.position := position.value;
      }
      if anchor.Some? {
        c.anchor := anchor.value;
      }
      controls := controls + [c];
    }

    /** `render(dc, size, offset)`: every control in turn; `ok` is false
        where one of them fails, and the controls after it are not drawn. */
    method Render(dc: DrawContext, cache: Cache, canvas: Size, offset: Point) returns (ok: bool)
      requires cache.Valid()
      modifies dc, cache
      ensures cache.Valid()
      ensures Grows(old(cache.entries), cache.entries)
      ensures ok == PageCmds(TextPainter(dc.metrics), cache.io, canvas, offset, ViewsOf(controls)).ok
      ensures dc.trace == old(dc.trace) + PageCmds(TextPainter(dc.metrics), cache.io, canvas, offset, ViewsOf(controls)).cmds
    {
      ghost var vs := ViewsOf(controls);
      ghost var paint := TextPainter(dc.metrics);
      ghost var io := cache.io;
      for i := 0 to |controls|
        invariant cache.Valid() && vs == ViewsOf(controls)
        invariant Grows(old(cache.entries), cache.entries)
        invariant PageCmds(paint, io, canvas, offset, vs[..i]).ok
        invariant dc.trace == old(dc.trace) + PageCmds(paint, io, canvas, offset, vs[..i]).cmds
      {
        ok := RenderNext(controls[i], dc, cache, canvas, offset, vs, i, old(dc.trace));
        assert vs == ViewsOf(controls);
        if !ok {
          PageStops(paint, io, canvas, offset, vs, i + 1);
          assert ok == PageCmds(paint, io, canvas, offset, vs).ok;
          return;
        }
      }
      assert vs[..|controls|] == vs;
      assert PageCmds(paint, io, canvas, offset, vs).ok;
      ok := true;
    }
  }

  /** One turn of `Page.render`'s loop: control `i` renders, and the page so
      far grows by its commands or stops. */
  method RenderNext(c: Control, dc: DrawContext, cache: Cache, canvas: Size, offset: Point,
                    ghost vs: seq<ControlState>, ghost i: nat, ghost start: seq<Cmd>) returns (ok: bool)
    requires cache.Valid() && i < |vs| && c.State() == vs[i]
    requires PageCmds(TextPainter(dc.metrics), cache.io, canvas, offset, vs[..i]).ok
    requires dc.trace == start + PageCmds(TextPainter(dc.metrics), cache.io, canvas, offset, vs[..i]).cmds
    modifies dc, cache
    ensures cache.Valid()
    ensures Grows(old(cache.entries), cache.entries)
    ensures ok == PageCmds(TextPainter(dc.metrics), cache.io, canvas, offset, vs[..i + 1]).ok
    ensures dc.trace == start + PageCmds(TextPainter(dc.metrics), cache.io, canvas, offset, vs[..i + 1]).cmds
  {
    ghost var paint := TextPainter(dc.metrics);
    ghost var done := PageCmds(paint, cache.io, canvas, offset, vs[..i]).cmds;
    PageStep(paint, cache.io, canvas, offset, vs, i);
    ok := c.Render(dc, cache, canvas, offset);
    if ok {
      AppendAssoc(start, done, ControlCmds(paint, cache.io, canvas, offset, vs[i]).value);
    }
  }

  lemma PageStep(paint: Painter, io: Loader, canvas: Size, offset: Point, vs: seq<ControlState>, i: nat)
    requires i < |vs| && PageCmds(paint, io, canvas, offset, vs[..i]).ok
    ensures ControlCmds(paint, io, canvas, offset, vs[i]).Failure? ==>
      PageCmds(paint, io, canvas, offset, vs[..i + 1]) == Outcome(PageCmds(paint, io, canvas, offset, vs[..i]).cmds, false)
    ensures ControlCmds(paint, io, canvas, offset, vs[i]).Ok? ==>
      PageCmds(paint, io, canvas, offset, vs[..i + 1])
        == Outcome(PageCmds(paint, io, canvas, offset, vs[..i]).cmds + ControlCmds(paint, io, canvas, offset, vs[i]).value, true)
  {
    assert vs[..i + 1][..i] == vs[..i];
  }

  /** A page that drew anything leaves the device context pristine. */
  lemma {:induction false} PageLeavesPristine(paint: Painter, io: Loader, canvas: Size, offset: Point,
                                              vs: seq<ControlState>, s: DcState)
    requires InertPainter(paint)
    ensures PageCmds(paint, io, canvas, offset, vs).cmds != [] ==>
      Run(s, PageCmds(paint, io, canvas, offset, vs).cmds) == Pristine
    decreases |vs|
  {
    if vs != [] {
      var prev := PageCmds(paint, io, canvas, offset, vs[..|vs| - 1]);
      var v := vs[|vs| - 1];
      PageLeavesPristine(paint, io, canvas, offset, vs[..|vs| - 1], s);
      if prev.ok && NodeSize(io, v.node).Ok? {
        var size := NodeSize(io, v.node).value;
        var p := ComputedPosition(canvas, v.position, v.anchor, size);
        var last := ControlCmds(paint, io, canvas, offset, v).value;
        ControlBracketed(paint, io, canvas, offset, v, size, p, Run(s, prev.cmds), 0);
        RunAppend(s, prev.cmds, last);
      }
    }
  }

  /** Once a page has failed, the later controls add nothing. */
  lemma {:induction false} PageStops(paint: Painter, io: Loader, canvas: Size, offset: Point, vs: seq<ControlState>, i: nat)
    requires i <= |vs| && !PageCmds(paint, io, canvas, offset, vs[..i]).ok
    ensures PageCmds(paint, io, canvas, offset, vs) == PageCmds(paint, io, canvas, offset, vs[..i])
    decreases |vs| - i
  {
    if i < |vs| {
      assert vs[..i + 1][..i] == vs[..i];
      PageStops(paint, io, canvas, offset, vs, i + 1);
    } else {
      assert vs[..i] == vs;
    }
  }
}

/** The meme editor's state (`Model` in main.py), the handlers that change
    it, the picture it generates, and the scan of the bundled images. */
module Session {
  import opened Strings
  import opened Resources
  import opened Canvas
  import opened TextBlock
  import opened Layout

  // ---- settings ----------------------------------------------------------

  /** Every field of `Model`, as one value. */
  datatype Settings = Settings(
    path: string,
    header: string,
    footer: string,
    headerSize: int,
    footerSize: int,
    headerAlignment: Alignment,
    footerAlignment: Alignment,
    padding: int,
    borderSize: int)

  /** What `reset` sets: empty captions at size 20, centred, padding 10 and
      an outline of 3; the image path is kept. */
  function Fresh(path: string): Settings {
    Settings(path, "", "", 20, 20, Center, Center, 10, 3)
  }

  /** The sizes stay within what the buttons allow, and the padding and
      outline keep the values `reset` gives them. */
  predicate Sane(s: Settings) {
    && 1 <= s.headerSize <= 100
    && 8 <= s.footerSize <= 144
    && s.padding == 10 && s.borderSize == 3
  }

  /** `on_header_smaller`: four points smaller, but not below 1. */
  function HeaderSmaller(s: Settings): (r: Settings)
    ensures r == s.(headerSize := r.headerSize)
    ensures r.headerSize >= 1 && (r.headerSize <= s.headerSize || r.headerSize == 1)
    ensures s.headerSize >= 5 ==> r.headerSize == s.headerSize - 4
    ensures s.headerSize < 5 ==> r.headerSize == 1
  {
    var size := s.headerSize - 4;
    s.(headerSize := if size < 1 then 1 else size)
  }

  /** `on_header_bigger`: four points bigger, but not above 100. */
  function HeaderBigger(s: Settings): (r: Settings)
    ensures r == s.(headerSize := r.headerSize)
    ensures r.headerSize <= 100 && (r.headerSize >= s.headerSize || r.headerSize == 100)
    ensures s.headerSize <= 96 ==> r.headerSize == s.headerSize + 4
    ensures s.headerSize > 96 ==> r.headerSize == 100
  {
    var size := s.headerSize + 4;
    s.(headerSize := if size > 100 then 100 else size)
  }

  /** `on_footer_smaller`: four points smaller, but not below 8. */
  function FooterSmaller(s: Settings): (r: Settings)
    ensures r == s.(footerSize := r.footerSize)
    ensures r.footerSize >= 8 && (r.footerSize <= s.footerSize || r.footerSize == 8)
    ensures s.footerSize >= 12 ==> r.footerSize == s.footerSize - 4
    ensures s.footerSize < 12 ==> r.footerSize == 8
  {
    var size := s.footerSize - 4;
    s.(footerSize := if size < 8 then 8 else size)
  }

  /** `on_footer_bigger`: four points bigger, but not above 144. */
  function FooterBigger(s: Settings): (r: Settings)
    ensures r == s.(footerSize := r.footerSize)
    ensures r.footerSize <= 144 && (r.footerSize >= s.footerSize || r.footerSize == 144)
    ensures s.footerSize <= 140 ==> r.footerSize == s.footerSize + 4
    ensures s.footerSize > 140 ==> r.footerSize == 144
  {
    var size := s.footerSize + 4;
    s.(footerSize := if size > 144 then 144 else size)
  }

  /** Every handler keeps the settings sane. */
  lemma HandlersKeepSane(s: Settings, text: string, a: Alignment, path: string)
    requires Sane(s)
    ensures Sane(HeaderSmaller(s)) && Sane(HeaderBigger(s)) && Sane(FooterSmaller(s)) && Sane(FooterBigger(s))
    ensures Sane(s.(header := text)) && Sane(s.(footer := text)) && Sane(s.(path := path))
    ensures Sane(s.(headerAlignment := a)) && Sane(s.(footerAlignment := a))
    ensures Sane(Fresh(s.path))
  {
  }

  /** Away from the limits, "smaller" and "bigger" undo each other. */
  lemma SmallerBiggerUndo(s: Settings)
    requires Sane(s)
    ensures s.headerSize >= 5 ==> HeaderBigger(HeaderSmaller(s)) == s
    ensures s.headerSize <= 96 ==> HeaderSmaller(HeaderBigger(s)) == s
    ensures s.footerSize >= 12 ==> FooterBigger(FooterSmaller(s)) == s
    ensures s.footerSize <= 140 ==> FooterSmaller(FooterBigger(s)) == s
  {
  }

  // ---- generating the picture --------------------------------------------

  /** `int(height * (size / 200.0))`: a caption's point size is `size`
      percent of half the picture's height, truncated toward zero. */
  function FontSize(height: nat, size: int): int {
    var p := height * size;
    if p >= 0 then p / 200 else -((-p) / 200)
  }

  /** The point size is the exact quotient with its fraction dropped. */
  lemma FontSizeBounds(height: nat, size: int)
    ensures height * size >= 0 ==> 0 <= 200 * FontSize(height, size) <= height * size < 200 * (FontSize(height, size) + 1)
    ensures height * size < 0 ==> 200 * (FontSize(height, size) - 1) < height * size <= 200 * FontSize(height, size) <= 0
  {
  }

  /** The options both captions are drawn with: white text with a black
      outline of `borderSize`, in Impact at `size` points. */
  function CaptionStyle(alignment: Alignment, borderSize: int, size: int): TextStyle {
    TextStyle(alignment, ColourTriple(Rgb(255, 255, 255)), FontTuple(FontOptions("Impact", size)),
              None, None, 0, Some(ColourTriple(Rgb(0, 0, 0))), borderSize)
  }

  /** A caption's text box: upper-cased text, its height as `Text` computes
      it. */
  function Caption(m: Metrics, text: string, width: int, style: TextStyle): TextBox {
    TextBox(Upper(text), width, TextHeight(m, FontOf(style), width, Upper(text), style.maxHeight), style)
  }

  /** The width of both captions: the picture's less the padding on both
      sides. */
  function CaptionWidth(s: Settings, b: Bitmap): int {
    b.width - s.padding * 2
  }

  /** The captions' options, their font scaled to the picture's height. */
  function HeaderStyle(s: Settings, b: Bitmap): TextStyle {
    CaptionStyle(s.headerAlignment, s.borderSize, FontSize(b.height, s.headerSize))
  }

  function FooterStyle(s: Settings, b: Bitmap): TextStyle {
    CaptionStyle(s.footerAlignment, s.borderSize, FontSize(b.height, s.footerSize))
  }

  /** The header and footer boxes for a background `b`. */
  function HeaderBox(s: Settings, m: Metrics, b: Bitmap): TextBox {
    Caption(m, s.header, CaptionWidth(s, b), HeaderStyle(s, b))
  }

  function FooterBox(s: Settings, m: Metrics, b: Bitmap): TextBox {
    Caption(m, s.footer, CaptionWidth(s, b), FooterStyle(s, b))
  }

  /** The controls `generate` puts on its page, in order: the background at
      the top left, the header centred `padding` below the top edge, and the
      footer centred `padding` above the bottom edge. */
  function Layers(s: Settings, b: Bitmap, header: TextBox, footer: TextBox): seq<ControlState> {
    [ ControlState(Point(0.0, 0.0), Point(0.0, 0.0), Picture(BitmapValue(b))),
      ControlState(Point((b.width / 2) as real, s.padding as real), Point(0.5, 0.0), Words(header)),
      ControlState(Point((b.width / 2) as real, -(s.padding as real)), Point(0.5, 1.0), Words(footer)) ]
  }

  /** A generated picture: its size and what was drawn on it. */
  datatype Rendered = Rendered(width: nat, height: nat, cmds: seq<Cmd>)

  /** `generate`: load the background (which may raise), then render the
      page on a fresh picture of the background's size. */
  function Generated(s: Settings, io: Loader, m: Metrics): Result<Rendered> {
    var bg := ResolveBitmap(io, Some(BitmapPath(s.path)));
    if bg.Failure? then Failure
    else
      var b := bg.value.value;
      Ok(Rendered(b.width, b.height,
                  PageCmds(TextPainter(m), io, Size(b.width, b.height), Point(0.0, 0.0),
                           Layers(s, b, HeaderBox(s, m, b), FooterBox(s, m, b))).cmds))
  }

  /** Generation fails exactly when the background cannot be loaded, and
      otherwise gives a picture of the background's size. */
  lemma GeneratedFails(s: Settings, io: Loader, m: Metrics)
    ensures Generated(s, io, m).Failure? <==> Load(io, s.path).None?
    ensures Generated(s, io, m).Ok? ==>
      Generated(s, io, m).value.width == Load(io, s.path).value.width
      && Generated(s, io, m).value.height == Load(io, s.path).value.height
  {
  }

  /** `Generated` for a background that loads. */
  lemma GeneratedUnfold(s: Settings, io: Loader, m: Metrics, b: Bitmap, vs: seq<ControlState>, cmds: seq<Cmd>)
    requires Load(io, s.path) == Some(b)
    requires vs == Layers(s, b, HeaderBox(s, m, b), FooterBox(s, m, b))
    requires cmds == PageCmds(TextPainter(m), io, Size(b.width, b.height), Point(0.0, 0.0), vs).cmds
    ensures Generated(s, io, m) == Ok(Rendered(b.width, b.height, cmds))
  {
  }

  /** The page `generate` renders starts with the background drawn at full
      size at the origin, and leaves the device context as it found it,
      whatever the captions are. */
  lemma {:induction false} LayersPicture(paint: Painter, io: Loader, s: Settings, b: Bitmap, header: TextBox, footer: TextBox)
    requires InertPainter(paint)
    ensures var cmds := PageCmds(paint, io, Size(b.width, b.height), Point(0.0, 0.0), Layers(s, b, header, footer)).cmds;
      && |cmds| >= 5
      && cmds[..5] == [ SetDeviceOrigin(0.0, 0.0), SetClippingRegion(0, 0, b.width, b.height),
                        DrawBitmap(b, 0, 0, true), DestroyClippingRegion, SetDeviceOrigin(0.0, 0.0) ]
      && Run(Pristine, cmds) == Pristine
  {
    var canvas := Size(b.width, b.height);
    var vs := Layers(s, b, header, footer);
    var origin := Point(0.0, 0.0);
    var size := Size(b.width, b.height);
    ControlCmdsUnfold(paint, io, canvas, origin, vs[0], size, Point(0.0, 0.0),
                      [SetDeviceOrigin(0.0, 0.0), SetClippingRegion(0, 0, b.width, b.height)],
                      [DestroyClippingRegion, SetDeviceOrigin(0.0, 0.0)]);
    var first := ControlCmds(paint, io, canvas, origin, vs[0]);
    assert NodeCmds(paint, io, vs[0].node) == [DrawBitmap(b, 0, 0, true)];
    assert [SetDeviceOrigin(0.0, 0.0), SetClippingRegion(0, 0, b.width, b.height)] + [DrawBitmap(b, 0, 0, true)]
           + [DestroyClippingRegion, SetDeviceOrigin(0.0, 0.0)]
        == [SetDeviceOrigin(0.0, 0.0), SetClippingRegion(0, 0, b.width, b.height),
            DrawBitmap(b, 0, 0, true), DestroyClippingRegion, SetDeviceOrigin(0.0, 0.0)];
    assert first == Ok([SetDeviceOrigin(0.0, 0.0), SetClippingRegion(0, 0, b.width, b.height),
                        DrawBitmap(b, 0, 0, true), DestroyClippingRegion, SetDeviceOrigin(0.0, 0.0)]);
    assert vs[..1][..0] == [];
    var one := PageCmds(paint, io, canvas, origin, vs[..1]);
    assert PageCmds(paint, io, canvas, origin, vs[..1][..0]) == Outcome([], true);
    assert [] + first.value == first.value;
    assert one == Outcome(first.value, true);
    assert vs[..2][..1] == vs[..1];
    var two := PageCmds(paint, io, canvas, origin, vs[..2]);
    assert two.cmds[..5] == first.value && two.ok;
    assert vs[..3] == vs;
    var all := PageCmds(paint, io, canvas, origin, vs);
    assert all.cmds[..5] == first.value;
    PageLeavesPristine(paint, io, canvas, origin, vs, Pristine);
  }

  /** What `generate` draws starts with the background at full size and
      leaves the device context's origin and clipping as they were. */
  lemma GeneratedPicture(s: Settings, io: Loader, m: Metrics)
    requires Load(io, s.path).Some?
    ensures |Generated(s, io, m).value.cmds| >= 5
    ensures Generated(s, io, m).value.cmds[..5] ==
      [ SetDeviceOrigin(0.0, 0.0),
        SetClippingRegion(0, 0, Load(io, s.path).value.width, Load(io, s.path).value.height),
        DrawBitmap(Load(io, s.path).value, 0, 0, true),
        DestroyClippingRegion,
        SetDeviceOrigin(0.0, 0.0) ]
    ensures Run(Pristine, Generated(s, io, m).value.cmds) == Pristine
  {
    var b := Load(io, s.path).value;
    TextPainterInert(m);
    LayersPicture(TextPainter(m), io, s, b, HeaderBox(s, m, b), FooterBox(s, m, b));
  }

  /** With a positive padding, the captions `generate` makes are placed
      with the header's top edge `padding` below the picture's top and the
      footer's bottom edge `padding` above its bottom; both are as wide as
      the picture less both paddings and centred, the right margin equal to
      the left one or one pixel wider. */
  lemma CaptionsPlaced(s: Settings, m: Metrics, io: Loader, b: Bitmap)
    requires s.padding > 0
    ensures var header := HeaderBox(s, m, b);
      var footer := FooterBox(s, m, b);
      var vs := Layers(s, b, header, footer);
      var canvas := Size(b.width, b.height);
      var tw := CaptionWidth(s, b);
      var hp := ComputedPosition(canvas, vs[1].position, vs[1].anchor, NodeSize(io, vs[1].node).value);
      var fp := ComputedPosition(canvas, vs[2].position, vs[2].anchor, NodeSize(io, vs[2].node).value);
      && NodeSize(io, vs[1].node).value.w == tw && NodeSize(io, vs[2].node).value.w == tw
      && hp.y == s.padding as real
      && fp.y + footer.height as real == (b.height - s.padding) as real
      && hp.x == fp.x
      && 0.0 <= (b.width as real - (hp.x + tw as real)) - hp.x <= 1.0
  {
    var header := HeaderBox(s, m, b);
    var footer := FooterBox(s, m, b);
    assert header.width == CaptionWidth(s, b) && footer.width == CaptionWidth(s, b);
    var vs := Layers(s, b, header, footer);
    assert NodeSize(io, vs[1].node) == Ok(Size(header.width, header.height));
    assert NodeSize(io, vs[2].node) == Ok(Size(footer.width, footer.height));
    CaptionsAt(s, b, header, footer);
  }

  /** `CaptionsPlaced` for any two boxes, sized as wide as the picture less
      both paddings. */
  lemma CaptionsAt(s: Settings, b: Bitmap, header: TextBox, footer: TextBox)
    requires s.padding > 0
    ensures var vs := Layers(s, b, header, footer);
      var canvas := Size(b.width, b.height);
      var tw := b.width - s.padding * 2;
      var hp := ComputedPosition(canvas, vs[1].position, vs[1].anchor, Size(tw, header.height));
      var fp := ComputedPosition(canvas, vs[2].position, vs[2].anchor, Size(tw, footer.height));
      && hp.y == s.padding as real
      && fp.y + footer.height as real == (b.height - s.padding) as real
      && hp.x == fp.x
      && 0.0 <= (b.width as real - (hp.x + tw as real)) - hp.x <= 1.0
  {
    var half := b.width / 2;
    assert b.width == 2 * half || b.width == 2 * half + 1;
  }

  /** `Model`: the current image path, the two captions and their sizes
      and alignments, the padding and the outline size. */
  class Model {
    var path: string
    var header: string
    var footer: string
    var headerSize: int
    var footerSize: int
    var headerAlignment: Alignment
    var footerAlignment: Alignment
    var padding: int
    var borderSize: int

    function Get(): Settings
      reads this
    {
      Settings(path, header, footer, headerSize, footerSize, headerAlignment, footerAlignment, padding, borderSize)
    }

    /** `Model.__init__`: no image yet, and everything else as `reset`
        leaves it. */
    constructor ()
      ensures Get() == Fresh("")
    {
      path := "";
      header := "";
      footer := "";
      headerSize := 20;
      footerSize := 20;
      headerAlignment := Center;
      footerAlignment := Center;
      padding := 10;
      borderSize := 3;
    }

    /** `reset` (the "New" command): everything but the image path. */
    method Reset()
      modifies this
      ensures Get() == Fresh(old(path))
    {
      header := "";
      footer := "";
      headerSize := 20;
      footerSize := 20;
      headerAlignment := Center;
      footerAlignment := Center;
      padding := 10;
      borderSize := 3;
    }

    /** `on_list_box`: a selected entry's path becomes the image; no
        selection (`-1`) changes nothing. */
    method OnListBox(selection: int, paths: seq<string>)
      requires selection < |paths|
      modifies this
      ensures Get() == if selection >= 0 then old(Get()).(path := paths[selection]) else old(Get())
    {
      if selection >= 0 {
        path := paths[selection];
      }
    }

    /** `on_open`: the file chosen in the dialog, if any, becomes the
        image. */
    method OnOpen(chosen: Option<string>)
      modifies this
      ensures Get() == if chosen.Some? then old(Get()).(path := chosen.value) else old(Get())
    {
      if chosen.Some? {
        path := chosen.value;
      }
    }

    /** `on_files_dropped`: the last of the dropped files becomes the
        image; dropping nothing changes nothing. */
    method OnFilesDropped(files: seq<string>)
      modifies this
      ensures Get() == if files != [] then old(Get()).(path := files[|files| - 1]) else old(Get())
    {
      if files != [] {
        path := files[|files| - 1];
      }
    }

    /** Filling the list at start-up selects the first image; with no
        images at all the lookup raises (`ok` is false) and nothing
        changes. */
    method OnImagesListed(entries: seq<(string, string)>) returns (ok: bool)
      modifies this
      ensures ok <==> entries != []
      ensures Get() == if ok then old(Get()).(path := entries[0].1) else old(Get())
    {
      if entries == [] {
        return false;
      }
      path := entries[0].1;
      return true;
    }

    /** `on_header` and `on_footer`: the caption typed in. */
    method OnHeader(text: string)
      modifies this
      ensures Get() == old(Get()).(header := text)
    {
      header := text;
    }

    method OnFooter(text: string)
      modifies this
      ensures Get() == old(Get()).(footer := text)
    {
      footer := text;
    }

    method OnHeaderSmaller()
      modifies this
      ensures Get() == HeaderSmaller(old(Get()))
    {
      headerSize := headerSize - 4;
      headerSize := if headerSize > 1 then headerSize else 1;
    }

    method OnHeaderBigger()
      modifies this
      ensures Get() == HeaderBigger(old(Get()))
    {
      headerSize := headerSize + 4;
      headerSize := if headerSize < 100 then headerSize else 100;
    }

    method OnFooterSmaller()
      modifies this
      ensures Get() == FooterSmaller(old(Get()))
    {
      footerSize := footerSize - 4;
      footerSize := if footerSize > 8 then footerSize else 8;
    }

    method OnFooterBigger()
      modifies this
      ensures Get() == FooterBigger(old(Get()))
    {
      footerSize := footerSize + 4;
      footerSize := if footerSize < 144 then footerSize else 144;
    }

    /** The six alignment buttons. */
    method OnHeaderAlign(a: Alignment)
      modifies this
      ensures Get() == old(Get()).(headerAlignment := a)
    {
      headerAlignment := a;
    }

    method OnFooterAlign(a: Alignment)
      modifies this
      ensures Get() == old(Get()).(footerAlignment := a)
    {
      footerAlignment := a;
    }

    /** `generate`: the picture for the current settings. */
    method Generate(cache: Cache, m: Metrics) returns (r: Result<Rendered>)
      requires cache.Valid()
      modifies cache
      ensures cache.Valid()
      ensures Grows(old(cache.entries), cache.entries)
      ensures r == Generated(Get(), cache.io, m)
    {
      var bg := cache.GetBitmap(Some(BitmapPath(path)));
      if bg.Failure? {
        return Failure;
      }
      var b := bg.value.value;
      var headerBox, footerBox := Captions(cache, m, Get(), b);
      var page := Compose(Get(), b, headerBox, footerBox);
      ghost var vs := ViewsOf(page.controls);
      var trace := Paint(page, cache, m, Size(b.width, b.height));
      GeneratedUnfold(Get(), cache.io, m, b, vs, trace);
      return Ok(Rendered(b.width, b.height, trace));
    }
  }

  /** The two caption boxes `generate` makes for settings `s`, measured
      through the cache. */
  method Captions(cache: Cache, m: Metrics, s: Settings, b: Bitmap) returns (headerBox: TextBox, footerBox: TextBox)
    requires cache.Valid()
    modifies cache
    ensures cache.Valid()
    ensures Grows(old(cache.entries), cache.entries)
    ensures headerBox == HeaderBox(s, m, b) && footerBox == FooterBox(s, m, b)
  {
    headerBox := NewText(m, cache, Upper(s.header), CaptionWidth(s, b), HeaderStyle(s, b));
    footerBox := NewText(m, cache, Upper(s.footer), CaptionWidth(s, b), FooterStyle(s, b));
  }

  /** The page `generate` renders: the background, then the header, then
      the footer, each added with its position and anchor. */
  method Compose(s: Settings, b: Bitmap, headerBox: TextBox, footerBox: TextBox) returns (page: Page)
    ensures fresh(page)
    ensures ViewsOf(page.controls) == Layers(s, b, headerBox, footerBox)
  {
    var layers := Layers(s, b, headerBox, footerBox);
    page := new Page();
    var background := AddControl(page, Picture(BitmapValue(b)), None, None);
    var headerControl := AddControl(page, Words(headerBox),
                                    Some(Point((b.width / 2) as real, s.padding as real)), Some(Point(0.5, 0.0)));
    var footerControl := AddControl(page, Words(footerBox),
                                    Some(Point((b.width / 2) as real, -(s.padding as real))), Some(Point(0.5, 1.0)));
    assert page.controls == [background, headerControl, footerControl];
    ViewsOfThree(background, headerControl, footerControl);
  }

  lemma ViewsOfThree(a: Control, b: Control, c: Control)
    ensures ViewsOf([a, b, c]) == [a.State(), b.State(), c.State()]
  {
  }

  /** `page.add(control, position, anchor)` for a new control showing
      `node`. */
  method AddControl(page: Page, node: Node, position: Option<Point>, anchor: Option<Point>) returns (c: Control)
    modifies page
    ensures fresh(c)
    ensures page.controls == old(page.controls) + [c]
    ensures c.State() == ControlState(if position.Some? then position.value else Point(0.0, 0.0),
                                      if anchor.Some? then anchor.value else Point(0.0, 0.0), node)
  {
    c := new Control(node, None, None);
    page.Add(c, position, anchor);
  }

  /** Render a page on a fresh picture of size `canvas`, measuring text
      with `m`; the result is everything drawn on it. */
  method Paint(page: Page, cache: Cache, m: Metrics, canvas: Size) returns (trace: seq<Cmd>)
    requires cache.Valid()
    modifies cache
    ensures cache.Valid()
    ensures Grows(old(cache.entries), cache.entries)
    ensures trace == PageCmds(TextPainter(m), cache.io, canvas, Point(0.0, 0.0), old(ViewsOf(page.controls))).cmds
  {
    ghost var vs := ViewsOf(page.controls);
    var dc := new DrawContext(m);
    var ok := page.Render(dc, cache, canvas, Point(0.0, 0.0));
    assert ViewsOf(page.controls) == vs;
    assert dc.metrics == m;
    trace := dc.trace;
  }

  // ---- the bundled images ------------------------------------------------

  /** Index of the last `c` in `s`, or `-1`. */
  function LastIndex(s: string, c: char): (i: int)
    ensures -1 <= i < |s|
    ensures i >= 0 ==> s[i] == c
    ensures forall j :: i < j < |s| ==> s[j] != c
  {
    if s == [] then -1
    else if s[|s| - 1] == c then |s| - 1
    else LastIndex(s[..|s| - 1], c)
  }

  /** `os.path.splitext`: the extension runs from the last dot of the last
      path component, unless only dots precede that dot in the component
      (so `.bashrc` has no extension). */
  function SplitExt(p: string): (r: (string, string))
    ensures r.0 + r.1 == p
    ensures r.1 == [] || (r.1[0] == '.' && forall j :: 0 < j < |r.1| ==> r.1[j] != '.' && r.1[j] != '/')
  {
    var dot := LastIndex(p, '.');
    var sep := LastIndex(p, '/');
    if dot > sep && exists j :: sep < j < dot && p[j] != '.' then
      assert p[..dot] + p[dot..] == p;
      (p[..dot], p[dot..])
    else (p, "")
  }

  /** `splitext` finds an extension exactly when the last path component
      has a dot with something other than dots before it. */
  lemma SplitExtFinds(p: string)
    ensures SplitExt(p).1 != [] <==> HasExtension(p)
  {
    var dot := LastIndex(p, '.');
    var sep := LastIndex(p, '/');
    if dot > sep && exists j :: sep < j < dot && p[j] != '.' {
      var j :| sep < j < dot && p[j] != '.';
      assert ExtensionAt(p, dot, j);
    }
  }

  /** The last dot of `p` is at `i`, and `j` is a character of the last
      path component before it that is not a dot. */
  predicate ExtensionAt(p: string, i: int, j: int) {
    && 0 <= j < i < |p| && p[i] == '.' && p[j] != '.' && p[j] != '/'
    && (forall k :: j < k < |p| ==> p[k] != '/')
    && (forall k :: i < k < |p| ==> p[k] != '.')
  }

  /** `p` has an extension: its last component holds a dot, the last one,
      with something other than dots before it. */
  ghost predicate HasExtension(p: string) {
    exists i, j :: ExtensionAt(p, i, j)
  }

  /** `os.path.splitext` on a picture name, a hidden file and a dotted
      directory. */
  lemma SplitExtExamples()
    ensures SplitExt("cat.png") == ("cat", ".png")
    ensures SplitExt(".bashrc") == (".bashrc", "")
    ensures SplitExt("a.b/c") == ("a.b/c", "")
  {
    assert "cat.png"[..6] == "cat.pn" && "cat.pn"[..5] == "cat.p" && "cat.p"[..4] == "cat.";
    assert LastIndex("cat.", '.') == 3;
    assert LastIndex("cat.png", '.') == 3 && "cat.png"[0] != '.';
    assert "cat.png"[..3] == "cat";
  }

  /** `str.replace(old, new)` for single characters. */
  function ReplaceChar(s: string, from: char, to: char): (r: string)
    ensures |r| == |s|
    ensures forall i :: 0 <= i < |s| ==> r[i] == if s[i] == from then to else s[i]
  {
    seq(|s|, i requires 0 <= i < |s| => if s[i] == from then to else s[i])
  }

  /** A picture file the program lists. */
  predicate IsImage(name: string) {
    SplitExt(name).1 in {".png", ".jpg", ".jpeg"}
  }

  /** The list entry for a file: its name without the extension, dashes
      read as spaces, and its path under `images`. */
  function Entry(name: string): (string, string) {
    (ReplaceChar(SplitExt(name).0, '-', ' '), "images/" + name)
  }

  /** The entries for the images among `names`, in order. */
  function Entries(names: seq<string>): seq<(string, string)> {
    if names == [] then []
    else Entries(names[..|names| - 1]) + (if IsImage(names[|names| - 1]) then [Entry(names[|names| - 1])] else [])
  }

  /** Every image gets an entry, and every entry comes from an image. */
  lemma {:induction false} EntriesExact(names: seq<string>, e: (string, string))
    ensures e in Entries(names) <==> exists i :: 0 <= i < |names| && IsImage(names[i]) && e == Entry(names[i])
    decreases |names|
  {
    if names != [] {
      var init := names[..|names| - 1];
      EntriesExact(init, e);
      EntriesLast(names, e);
      ListedLast(names, init, e);
    }
  }

  /** The entries of a listing: those of all names but the last, then the
      last name's entry if it is an image. */
  lemma EntriesLast(names: seq<string>, e: (string, string))
    requires names != []
    ensures e in Entries(names) <==>
      e in Entries(names[..|names| - 1]) || (IsImage(names[|names| - 1]) && e == Entry(names[|names| - 1]))
  {
  }

  /** An image entry comes from the last name or from one before it. */
  lemma ListedLast(names: seq<string>, init: seq<string>, e: (string, string))
    requires names != [] && init == names[..|names| - 1]
    ensures (exists i :: 0 <= i < |names| && IsImage(names[i]) && e == Entry(names[i])) <==>
      (exists i :: 0 <= i < |init| && IsImage(init[i]) && e == Entry(init[i]))
      || (IsImage(names[|names| - 1]) && e == Entry(names[|names| - 1]))
  {
    if exists i :: 0 <= i < |names| && IsImage(names[i]) && e == Entry(names[i]) {
      var i :| 0 <= i < |names| && IsImage(names[i]) && e == Entry(names[i]);
      if i < |names| - 1 {
        assert init[i] == names[i];
      }
    }
    if exists i :: 0 <= i < |init| && IsImage(init[i]) && e == Entry(init[i]) {
      var i :| 0 <= i < |init| && IsImage(init[i]) && e == Entry(init[i]);
      assert names[i] == init[i];
    }
  }

  /** The file name can be read back from an entry's path. */
  lemma EntryPath(name: string)
    ensures Entry(name).1[|"images/"|..] == name
  {
  }

  /** `load_images`: the directory listing filtered to pictures. */
  method LoadImages(names: seq<string>) returns (result: seq<(string, string)>)
    ensures result == Entries(names)
  {
    result := [];
    for i := 0 to |names|
      invariant result == Entries(names[..i])
    {
      assert names[..i + 1][..i] == names[..i];
      var base, ext := SplitExt(names[i]).0, SplitExt(names[i]).1;
      if ext in {".png", ".jpg", ".jpeg"} {
        var title := ReplaceChar(base, '-', ' ');
        var fullPath := "images/" + names[i];
        result := result + [(title, fullPath)];
      }
    }
    assert names[..|names|] == names;
  }
}

/** The memoising resource cache of cache.py.

    One dictionary holds every resource the program builds: bitmaps keyed by
    a file path or URL, colours keyed by an `(r, g, b)` triple and fonts keyed
    by a `(face, size, bold, italic, underline)` tuple. A key of a different
    kind can never equal another, so the three kinds share the map without
    clashing. Loading a bitmap (the file system, the network and the image
    decoder) is an oracle; building a colour or a font is a pure mapping. */
module Resources {

  datatype Option<T> = None | Some(value: T)

  /** The outcome of an operation that can raise: `Failure` stands for the
      exception (a missing URL, a failed download). */
  datatype Result<T> = Ok(value: T) | Failure

  // ---- resources ---------------------------------------------------------

  /** A decoded image; only its size matters to the program. */
  datatype Bitmap = Bitmap(id: nat, width: nat, height: nat)

  /** A colour component: `wx.Colour` accepts only values that fit a byte. */
  type Byte = x: int | 0 <= x < 256

  /** An `(r, g, b)` colour key. */
  datatype Rgb = Rgb(r: Byte, g: Byte, b: Byte)

  /** `wx.Colour`. */
  datatype Colour = Colour(red: Byte, green: Byte, blue: Byte)

  /** A `(face, size, bold, italic, underline)` font key, as built by
      `font()` in core.py. */
  datatype FontSpec = FontSpec(face: string, size: int, bold: bool, italic: bool, underline: bool)

  datatype FontFamily = FamilyDefault
  datatype FontStyle = StyleNormal | StyleItalic
  datatype FontWeight = WeightNormal | WeightBold

  /** `wx.Font(size, family, style, weight, underline, face)`. */
  datatype Font = Font(size: int, family: FontFamily, style: FontStyle, weight: FontWeight, underline: bool, face: string)

  /** What a caller may hand to `get_bitmap`, `get_color` or `get_font`
      besides `None`: an already built resource, or a key to build it from. */
  datatype BitmapRef = BitmapValue(bitmap: Bitmap) | BitmapPath(path: string)
  datatype ColourRef = ColourValue(colour: Colour) | ColourTriple(rgb: Rgb)
  datatype FontRef = FontValue(font: Font) | FontTuple(spec: FontSpec)

  /** A dictionary key. */
  datatype Key = PathKey(path: string) | ColourKey(rgb: Rgb) | FontKey(spec: FontSpec)

  /** A dictionary value. */
  datatype Res = BitmapRes(bitmap: Bitmap) | ColourRes(colour: Colour) | FontRes(font: Font)

  // ---- construction ------------------------------------------------------

  /** `wx.Colour(*key)`. */
  function MakeColour(k: Rgb): (c: Colour)
    ensures ColourRgb(c) == k
  {
    Colour(k.r, k.g, k.b)
  }

  /** The key a colour was built from. */
  function ColourRgb(c: Colour): Rgb {
    Rgb(c.red, c.green, c.blue)
  }

  /** `make_font`: italic style exactly for italic keys, bold weight exactly
      for bold keys, the default family, and size, underline and face passed
      through. */
  function MakeFont(k: FontSpec): (f: Font)
    ensures f.style == StyleItalic <==> k.italic
    ensures f.weight == WeightBold <==> k.bold
    ensures f.family == FamilyDefault
    ensures f.size == k.size && f.underline == k.underline && f.face == k.face
  {
    var style := if k.italic then StyleItalic else StyleNormal;
    var weight := if k.bold then WeightBold else WeightNormal;
    Font(k.size, FamilyDefault, style, weight, k.underline, k.face)
  }

  /** The key a font was built from. */
  function FontSpecOf(f: Font): FontSpec {
    FontSpec(f.face, f.size, f.weight == WeightBold, f.style == StyleItalic, f.underline)
  }

  /** `make_font` loses nothing: its key can be read back from the font, so
      distinct keys give distinct fonts. */
  lemma MakeFontInverse(k: FontSpec)
    ensures FontSpecOf(MakeFont(k)) == k
  {
  }

  lemma MakeFontInjective(a: FontSpec, b: FontSpec)
    requires MakeFont(a) == MakeFont(b)
    ensures a == b
  {
    MakeFontInverse(a);
    MakeFontInverse(b);
  }

  /** The outside world a bitmap is loaded from: whether a path names an
      existing file, the bitmap a file decodes to, and the bitmap a URL
      downloads and decodes to (`None` when the download raises). */
  datatype Loader = Loader(onDisk: string -> bool, readFile: string -> Bitmap, download: string -> Option<Bitmap>)

  /** What loading `path` yields: the file when it exists, else the URL. */
  function Load(io: Loader, path: string): Option<Bitmap> {
    if io.onDisk(path) then Some(io.readFile(path)) else io.download(path)
  }

  /** What `get_bitmap` yields for a reference: the bitmap itself, or the
      one its path loads to, or the exception when loading fails. */
  function ResolveBitmap(io: Loader, r: Option<BitmapRef>): (b: Result<Option<Bitmap>>)
    ensures b.Ok? && b.value.None? <==> r.None?
    ensures b.Failure? <==> r.Some? && r.value.BitmapPath? && Load(io, r.value.path).None?
  {
    match r
    case None => Ok(None)
    case Some(BitmapValue(v)) => Ok(Some(v))
    case Some(BitmapPath(p)) => if Load(io, p).None? then Failure else Ok(Load(io, p))
  }

  /** The colour `get_color` returns for a reference: the same as building
      it afresh, because the cache only ever stores what it built. */
  function ResolveColour(r: Option<ColourRef>): (c: Option<Colour>)
    ensures r.None? <==> c.None?
    ensures r.Some? && r.value.ColourTriple? ==> ColourRgb(c.value) == r.value.rgb
  {
    match r
    case None => None
    case Some(ColourValue(c)) => Some(c)
    case Some(ColourTriple(k)) => Some(MakeColour(k))
  }

  /** The font `get_font` returns for a reference. */
  function ResolveFont(r: Option<FontRef>): (f: Option<Font>)
    ensures r.None? <==> f.None?
    ensures r.Some? && r.value.FontTuple? ==> FontSpecOf(f.value) == r.value.spec
  {
    match r
    case None => None
    case Some(FontValue(f)) => Some(f)
    case Some(FontTuple(k)) => MakeFontInverse(k); Some(MakeFont(k))
  }

  /** An entry is what the cache builds for its key. */
  predicate Built(io: Loader, k: Key, v: Res) {
    match k
    case PathKey(p) => Load(io, p).Some? && v == BitmapRes(Load(io, p).value)
    case ColourKey(c) => v == ColourRes(MakeColour(c))
    case FontKey(f) => v == FontRes(MakeFont(f))
  }

  predicate Distinct(ks: seq<Key>) {
    forall i, j :: 0 <= i < j < |ks| ==> ks[i] != ks[j]
  }

  // ---- the cache ---------------------------------------------------------

  /** Entries are never removed or replaced. */
  predicate Grows(before: map<Key, Res>, after: map<Key, Res>) {
    forall k :: k in before ==> k in after && after[k] == before[k]
  }

  /** `Cache`: one dictionary, filled on demand and never emptied. The files
      and URLs it loads from are fixed for its lifetime. */
  class Cache {
    const io: Loader
    var entries: map<Key, Res>
    /** Every construction the cache has performed, in order. */
    ghost var builds: seq<Key>

    /** Every entry was built for its own key, and each key was built exactly
        once. */
    ghost predicate Valid()
      reads this
    {
      && (forall k :: k in entries ==> Built(io, k, entries[k]))
      && (forall k :: k in entries <==> k in builds)
      && Distinct(builds)
    }

    constructor (io: Loader)
      ensures this.io == io && entries == map[] && builds == []
      ensures Valid()
    {
      this.io := io;
      entries := map[];
      builds := [];
    }

    /** `get_bitmap`: `None` and built bitmaps are returned as they are; a
        path is looked up, and loaded and stored only when absent. */
    method GetBitmap(r: Option<BitmapRef>) returns (b: Result<Option<Bitmap>>)
      requires Valid()
      modifies this
      ensures Valid() && Grows(old(entries), entries)
      ensures b == ResolveBitmap(io, r)
      ensures r.Some? && r.value.BitmapPath? && b.Ok? ==>
        PathKey(r.value.path) in entries && entries[PathKey(r.value.path)] == BitmapRes(b.value.value)
      ensures r.None? || r.value.BitmapValue? || PathKey(r.value.path) in old(entries) || b.Failure? ==> unchanged(this)
      ensures r.Some? && r.value.BitmapPath? && PathKey(r.value.path) !in old(entries) && b.Ok? ==>
        && entries == old(entries)[PathKey(r.value.path) := BitmapRes(b.value.value)]
        && builds == old(builds) + [PathKey(r.value.path)]
    {
      match r
      case None =>
        return Ok(None);
      case Some(BitmapValue(v)) =>
        return Ok(Some(v));
      case Some(BitmapPath(path)) =>
        var k := PathKey(path);
        if k !in entries {
          var loaded := if io.onDisk(path) then Some(io.readFile(path)) else io.download(path);
          if loaded.None? {
            return Failure;
          }
          Insert(k, BitmapRes(loaded.value));
        }
        return Ok(Some(entries[k].bitmap));
    }

    /** `get_color`: `None` and built colours are returned as they are; a
        triple is looked up, and built and stored only when absent. */
    method GetColor(r: Option<ColourRef>) returns (c: Option<Colour>)
      requires Valid()
      modifies this
      ensures Valid() && Grows(old(entries), entries)
      ensures c == ResolveColour(r)
      ensures r.Some? && r.value.ColourTriple? ==>
        ColourKey(r.value.rgb) in entries && entries[ColourKey(r.value.rgb)] == ColourRes(c.value)
      ensures r.None? || r.value.ColourValue? || ColourKey(r.value.rgb) in old(entries) ==> unchanged(this)
      ensures r.Some? && r.value.ColourTriple? && ColourKey(r.value.rgb) !in old(entries) ==>
        && entries == old(entries)[ColourKey(r.value.rgb) := ColourRes(MakeColour(r.value.rgb))]
        && builds == old(builds) + [ColourKey(r.value.rgb)]
    {
      match r
      case None =>
        return None;
      case Some(ColourValue(v)) =>
        return Some(v);
      case Some(ColourTriple(rgb)) =>
        var k := ColourKey(rgb);
        if k !in entries {
          Insert(k, ColourRes(MakeColour(rgb)));
        }
        return Some(entries[k].colour);
    }

    /** `get_font`: `None` and built fonts are returned as they are; a key
        tuple is looked up, and built by `make_font` and stored only when
        absent. */
    method GetFont(r: Option<FontRef>) returns (f: Option<Font>)
      requires Valid()
      modifies this
      ensures Valid() && Grows(old(entries), entries)
      ensures f == ResolveFont(r)
      ensures r.Some? && r.value.FontTuple? ==>
        FontKey(r.value.spec) in entries && entries[FontKey(r.value.spec)] == FontRes(f.value)
      ensures r.None? || r.value.FontValue? || FontKey(r.value.spec) in old(entries) ==> unchanged(this)
      ensures r.Some? && r.value.FontTuple? && FontKey(r.value.spec) !in old(entries) ==>
        && entries == old(entries)[FontKey(r.value.spec) := FontRes(MakeFont(r.value.spec))]
        && builds == old(builds) + [FontKey(r.value.spec)]
    {
      match r
      case None =>
        return None;
      case Some(FontValue(v)) =>
        return Some(v);
      case Some(FontTuple(spec)) =>
        var k := FontKey(spec);
        if k !in entries {
          Insert(k, FontRes(MakeFont(spec)));
        }
        return Some(entries[k].font);
    }

    /** `self.cache[key] = value` for a key not yet present. */
    method Insert(k: Key, v: Res)
      requires Valid() && k !in entries && Built(io, k, v)
      modifies this
      ensures Valid()
      ensures entries == old(entries)[k := v] && builds == old(builds) + [k]
    {
      entries := entries[k := v];
      builds := builds + [k];
    }
  }
}

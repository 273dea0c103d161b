# pyMeme, modelled in Dafny

pyMeme is a small wx desktop program for captioning pictures: the user picks
a background image, types a header and a footer, and the program draws the
captions in upper-case white Impact with a black outline, centred at the top
and bottom of the picture. This project models its core and proves what that
core promises:

- **Word wrap** (`strings.dfy`, `wrap.dfy`): `word_wrap` splits the text into
  lines, each line into alternating word and whitespace runs, and greedily
  packs words into lines no wider than a pixel budget, measured with a
  per-character width table. A word too wide for any line gets a line of its
  own. The loop is a `method` proved equal to a recursive specification.
  The lemmas about that specification show three things. The lines tile the
  input. Every line fits unless it is a single oversize word. No
  non-whitespace character is lost or reordered.
- **Resource cache** (`resources.dfy`): one dictionary memoises bitmaps
  (keyed by path or URL), colours (keyed by `(r, g, b)`) and fonts (keyed by
  `(face, size, bold, italic, underline)`). `Cache` is a class whose map
  only grows. Each entry is built once, for its own key, and a repeated
  lookup returns the stored value without rebuilding it.
- **Drawing** (`canvas.dfy`, `text.dfy`): a device context is the list of
  commands drawn on it (`SetFont`, `DrawText`, `SetDeviceOrigin`,
  `SetClippingRegion`, …). `Text` measures its wrapped lines to get its
  height. It draws them from `line_offset`, stopping at the first line that
  would overflow, aligned left, right or centre. Each line is drawn as
  shadow, then outline (every offset within the outline's radius), then
  foreground.
- **Layout** (`layout.dfy`): a `Control` is placed by a position and a
  fractional anchor. A negative coordinate counts from the far edge. A
  `Page` renders its controls in insertion order, each bracketed by an
  origin move and a clipping region that are undone afterwards.
- **The editor** (`session.dfy`): the `Model`'s settings and the handlers that
  change them. This covers the clamped size buttons, alignment, reset and
  image choice. It also covers `generate`, which loads the background and
  stacks the background, header and footer on a page. Finally, it covers
  `load_images`, which keeps the `.png`, `.jpg` and `.jpeg` files and turns
  their names into titles.

Integers are unbounded, as Python's are. Python 2's `/` on integers floors,
which Dafny's `/` also does for a positive divisor. Text metrics
(`GetTextExtent`) are an abstract function of font and string. Loading a
bitmap is an oracle (`Loader`) fixed for the lifetime of a cache. Positions
and anchors are exact `real`s.

## Model

| member | source | states |
|---|---|---|
| Strings.Strip | core.py:33 | the stripped line is no longer than the original and neither starts nor ends with whitespace |
| Strings.StripParts | core.py:33 | a line is whitespace, then its stripped form, then whitespace: `strip` removes only surrounding whitespace |
| Strings.StripKeepsNonSpace | core.py:33 | stripping keeps every non-whitespace character in order |
| Strings.SplitLines | core.py:18 | `splitlines` gives no lines exactly for the empty text |
| Strings.SplitLinesHaveNoBreaks | core.py:18 | no line contains a line break |
| Strings.SplitLinesKeepsNonSpace | core.py:18 | the lines together hold the text's non-whitespace characters in order |
| Strings.Upper | main.py:60 | `upper()` keeps the length, maps each character through its upper-case form and leaves no lower-case letter |
| Wrap.WordLength | core.py:19 | a word run is the longest whitespace-free prefix: it stops exactly at whitespace or at the end |
| Wrap.Chunks | core.py:19-20 | the token list of a line as word/whitespace pairs, ending on the empty sentinel; `ChunksAlternate`, `ChunksGaps` and `ChunksJoin` state what it is |
| Wrap.ChunksAlternate | core.py:19 | the `(\s+)` split alternates whitespace-free words and whitespace gaps |
| Wrap.ChunksGaps | core.py:19 | every gap but the last (the appended `''` sentinel's place) is non-empty and every word between the first and the last is non-empty, so whitespace runs are maximal |
| Wrap.ChunksJoin | core.py:19-20 | the tokens join back to the line |
| Wrap.JoinWidth | core.py:17-21 | the width of a joined token range is the sum of the per-token widths from the character table |
| Wrap.Spans | core.py:22-32 | the lines the loop cuts are consecutive token ranges covering every token |
| Wrap.SpansFit | core.py:24-30 | every line of two or more words has its width through its last word within the budget |
| Wrap.SpansGreedy | core.py:24-30 | a line is only ended when the next word would overflow it |
| Wrap.SpansAreGreedyCut | core.py:22-32 | the cut of a whole line tiles it, fits and is greedy |
| Wrap.OversizeWordAlone | core.py:24-29 | a word wider than the budget is a line on its own |
| Wrap.Cut | core.py:22-31 | the inner loop of `word_wrap` as a recursion on `index`, `start` and `total`; `SpansAreGreedyCut` and `CutIsTexts` tie it to the greedy spans |
| Wrap.CutIsTexts | core.py:22-32 | the strings the loop appends are the joined token ranges of the spans |
| Wrap.TextsJoin | core.py:26-32 | the emitted lines join back to the tokens they cover |
| Wrap.StripAll | core.py:33 | every line is replaced by its stripped form, in order |
| Wrap.CutLines | core.py:22-32 | the inner loop computes exactly the specified cut |
| Wrap.WrapOne | core.py:19-32 | one input line is tokenised, measured and cut as specified |
| Wrap.WordWrap | core.py:14-34 | the whole `word_wrap` loop returns `WrapText` of its input |
| Wrap.WrapLineNonEmpty | core.py:31-32 | every input line yields at least one output line |
| Wrap.RawLinesEmpty | core.py:18-32 | the loop emits nothing only when the text has no lines |
| Wrap.WrapText | core.py:14-33 | the stripped lines of every source line's wrap, or `['']` when there are none; `WrapTextShape`, `WrapTextKeepsNonSpace` and `WrapTextFits` state what it promises |
| Wrap.WrapTextShape | core.py:33-34 | the result is never empty, empty text gives `['']`, and no line has leading or trailing whitespace |
| Wrap.WrapTextKeepsNonSpace | core.py:14-34 | the output's non-whitespace characters, in order, equal the input's |
| Wrap.StripWidth | core.py:33 | stripping never widens a line |
| Wrap.WrapLineFits | core.py:19-33 | each stripped line of one input line fits the budget or is a single word |
| Wrap.WrapTextFits | core.py:14-34 | every returned line fits the budget or is a single word |
| Resources.MakeColour | cache.py:25 | the colour holds exactly its key's byte components, and its key can be read back |
| Resources.MakeFont | cache.py:33-39 | italic style exactly for italic keys, bold weight exactly for bold keys, default family, size, underline and face passed through |
| Resources.MakeFontInverse | cache.py:33-39 | the key can be read back from the font |
| Resources.MakeFontInjective | cache.py:33-39 | distinct keys give distinct fonts |
| Resources.ResolveBitmap | cache.py:8-20 | `None` passes through, and failure happens exactly for a path that neither exists on disk nor downloads |
| Resources.ResolveColour | cache.py:21-26 | `None` passes through, and a triple gives a colour with those components |
| Resources.ResolveFont | cache.py:27-32 | `None` passes through, and a key tuple gives the font `make_font` builds for it |
| Resources.Cache.constructor | cache.py:6-7 | a new cache is empty and valid |
| Resources.Cache.GetBitmap | cache.py:8-20 | the result is the resolved bitmap. `None`, a built bitmap, a present key or a failed load leave the cache untouched. Otherwise exactly the key is added, once. The key's entry is the returned bitmap. Old entries never change |
| Resources.Cache.GetColor | cache.py:21-26 | as `GetBitmap` for colours: passthrough untouched, build only when absent, entry equals result, entries only grow |
| Resources.Cache.GetFont | cache.py:27-32 | as `GetBitmap` for fonts, building with `make_font` |
| Resources.Cache.Insert | cache.py:11-13 | a store adds one entry, built for its key, and logs one build |
| Canvas.DrawContext.constructor | core.py:36-37 | a fresh device context has the default font and nothing drawn |
| Canvas.RunInert | core.py:56-65 | commands that only ink leave the origin and clipping unchanged |
| TextBlock.FontOptions | core.py:11-12 | `font()`'s defaults and the font its tuple builds |
| TextBlock.DefaultStyle | core.py:96-104 | `Text`'s defaults: left, black, the default font, no shadow, no max height, offset 0, no outline |
| TextBlock.Blanked | core.py:118 | empty lines are replaced by a single space, others kept |
| TextBlock.ShownLinesShape | core.py:114-119 | `get_lines` gives at least one line and no empty line |
| TextBlock.TextHeight | core.py:106-111 | the height is the summed line heights, capped by `max_height` when that is set (a minimum) |
| TextBlock.LinesHeightPrefix | core.py:120-124 | the first lines are never taller than all of them |
| TextBlock.PySliceFrom | core.py:145 | `lines[k:]` is a suffix of the right length for positive, negative and out-of-range `k` |
| TextBlock.AlignXPlaces | core.py:152-157 | left puts the line `padding` in, right ends it `padding` before the width, centre makes the margins differ by at most one pixel |
| TextBlock.BorderOffsets | core.py:133-139 | the outline is drawn at exactly the offsets in the square of radius `p` inside the circle of radius `p` |
| TextBlock.RowsHave | core.py:135-139 | a command is in the outline rows exactly when it is `DrawText` at an allowed offset |
| TextBlock.LineCmdsOrder | core.py:125-141 | a line ends with the foreground colour and text at `(x, y)`, and starts with the shadow at `(x+p+1, y+p+1)` when there is one |
| TextBlock.Placed | core.py:147-159 | the draw loop from one line on, stopping at the first line that would cross the bottom; `PlacedCut` and `PlacedAll` state which lines it draws |
| TextBlock.PlacedAll | core.py:148-159 | when the height is the lines' total, every line is drawn |
| TextBlock.FittingLines | core.py:147-151 | the number of lines that fit before one would cross the bottom: that many fit, and one more would not |
| TextBlock.PlacedCut | core.py:148-159 | when the first `k` lines fit and line `k` would not, the loop draws exactly the first `k` lines, each right below the previous |
| TextBlock.DrawShowsAllLines | core.py:107-159 | a text without `max_height` and offset shows every wrapped line |
| TextBlock.DrawCmds | core.py:142-159 | `draw` as commands: the font set twice, then the lines after `line_offset` placed by the loop; `DrawCut`, `DrawShowsAllLines` and `DrawCmdsInk` state what it shows |
| TextBlock.DrawCut | core.py:142-159 | `draw` shows exactly the lines after `line_offset` that fit the box from the top, each right below the previous |
| TextBlock.DrawCmdsInk | core.py:142-159 | drawing a text only sets fonts and colours and draws text |
| TextBlock.GetLines | core.py:114-119 | `get_lines` sets the resolved font and returns the shown lines in it; the cache stays valid and keeps every entry it had |
| TextBlock.ComputeHeight | core.py:120-124 | the loop sums the heights of the shown lines; the cache stays valid and keeps every entry it had |
| TextBlock.SumHeights | core.py:123 | the summing loop returns the total height of the lines |
| TextBlock.NewText | core.py:96-111 | a new `Text` keeps its label, width and options, and gets the capped height; the cache stays valid and keeps every entry it had |
| TextBlock.PaintText | core.py:125-141 | `draw_text` resolves the colours and appends the shadow, outline and foreground commands, in that order; the cache stays valid and keeps every entry it had |
| TextBlock.PaintLine | core.py:129-141 | the drawing order for resolved colours |
| TextBlock.PaintShadow | core.py:130-132 | the shadow colour and text are drawn at `(x+p+1, y+p+1)` when there is a shadow |
| TextBlock.PaintBorder | core.py:133-139 | the border colour and the outline rows are drawn when there is a border |
| TextBlock.PaintOutline | core.py:133-139 | the nested loops draw exactly the outline rows |
| TextBlock.PaintRow | core.py:136-139 | the inner loop draws exactly one outline row |
| TextBlock.Draw | core.py:142-159 | `draw` appends exactly the specified commands for the text; the cache stays valid and keeps every entry it had |
| TextBlock.DrawLines | core.py:147-159 | the line loop places lines until one would overflow the height; the cache stays valid and keeps every entry it had |
| TextBlock.LineX | core.py:152-157 | the x of a line is the aligned x of the specified placement |
| Layout.AnchorOnTarget | core.py:46-55 | the anchor point lands `position` from the near edge, or `-position` from the far edge when negative |
| Layout.ComputedPosition | core.py:46-55 | `get_computed_position`: the target less the anchor's share of the size; `AnchorOnTarget`, `TargetInsideControl` and `PositionCanvas` state where it lands |
| Layout.ComputedPositionExample | core.py:46-55 | a 30 by 20 control anchored at (1, 1), 10 pixels in from the corner of a 400 by 300 canvas, is placed at (360, 270) |
| Layout.TargetInsideControl | core.py:46-55 | with an anchor in the unit square and a non-negative size, the target point lies inside the placed control |
| Layout.PositionCanvas | core.py:46-55 | a non-negative position is placed the same on any canvas, and a negative x moves by exactly the difference in canvas widths |
| Layout.NodeSize | core.py:88-90 | a bitmap's size fails exactly when its load fails; otherwise it is the width and height of the given or loaded bitmap, and a text's size is its box's width and height |
| Layout.ControlCmds | core.py:56-65 | `Control.render` as commands, or the size failure; `ControlBracketed` states its bracketing |
| Layout.ControlBracketed | core.py:56-65 | while a control draws, the origin is its corner plus the offset and the clip is its size; afterwards both are reset |
| Layout.Control.constructor | core.py:41-45 | position and anchor default to (0, 0) |
| Layout.Control.GetSize | core.py:112-113 | the size of the node; the cache stays valid and keeps every entry it had |
| Layout.Control.GetComputedPosition | core.py:46-55 | the specified position, or the failure of the bitmap load; the cache stays valid and keeps every entry it had |
| Layout.Control.Draw | core.py:91-93 | a bitmap is drawn masked at (0, 0); the cache stays valid and keeps every entry it had |
| Layout.Control.Render | core.py:56-65 | origin, clip, the node's drawing, clip removal and origin reset, appended in that order; the cache stays valid and keeps every entry it had |
| Layout.Page.constructor | core.py:72-73 | a new page has no controls |
| Layout.Page.Add | core.py:74-79 | the control goes last, and its position and anchor change only when given |
| Layout.Page.Render | core.py:80-82 | the controls are rendered in insertion order, stopping at the first that fails; the cache stays valid and keeps every entry it had |
| Layout.RenderNext | core.py:80-82 | rendering one more control extends the drawn commands to the next prefix of the page, or reports the stop; the cache stays valid and keeps every entry it had |
| Layout.PageCmds | core.py:80-82 | `Page.render` as commands over the controls in order, stopping at the first failure; `PageStops` and `PageLeavesPristine` state it |
| Layout.PageStops | core.py:80-82 | after a failure nothing more is drawn |
| Layout.PageLeavesPristine | core.py:80-82 | a page that drew anything leaves the origin at (0, 0) and no clipping region |
| Session.HeaderSmaller | main.py:245-248 | four points smaller when that stays at least 1, otherwise exactly 1; nothing else changed |
| Session.HeaderBigger | main.py:249-252 | four points bigger when that stays at most 100, otherwise exactly 100; nothing else changed |
| Session.FooterSmaller | main.py:265-268 | four points smaller when that stays at least 8, otherwise exactly 8; nothing else changed |
| Session.FooterBigger | main.py:269-272 | four points bigger when that stays at most 144, otherwise exactly 144; nothing else changed |
| Session.HandlersKeepSane | main.py:245-281 | every handler and reset keep header size in 1..100, footer size in 8..144, padding 10 and outline 3 |
| Session.SmallerBiggerUndo | main.py:245-272 | away from the limits, "smaller" and "bigger" undo each other |
| Session.FontSize | main.py:57-58 | `int(height * (size / 200.0))` as an exact quotient truncated toward zero; `FontSizeBounds` states its bounds |
| Session.FontSizeBounds | main.py:57-58 | the caption's point size is `height * size / 200` truncated toward zero |
| Session.Generated | main.py:51-82 | `generate` as a value: a failure when the background does not load, otherwise the picture of the background and the two captions; `GeneratedFails`, `LayersPicture` and `GeneratedPicture` state it |
| Session.GeneratedFails | main.py:52-53 | generation fails exactly when the background cannot be loaded, and the picture has the background's size |
| Session.LayersPicture | main.py:54-81 | the page starts by drawing the background at full size at the origin and leaves the origin and clip reset |
| Session.GeneratedPicture | main.py:51-82 | the same for the picture `generate` draws |
| Session.CaptionsPlaced | main.py:68-78 | for the captions `generate` makes, sized as `get_size` reports them: the header's top is `padding` below the top edge, the footer's bottom `padding` above the bottom edge, both are as wide as the picture less both paddings, and both are centred to within a pixel |
| Session.Model.constructor | main.py:39-41 | a new model has no image and the reset values |
| Session.Model.Reset | main.py:42-50 | empty captions, sizes 20 and 20, centred, padding 10, outline 3, path kept |
| Session.Model.OnListBox | main.py:237-241 | a selected entry's path becomes the image, and no selection changes nothing |
| Session.Model.OnOpen | main.py:287-295 | a confirmed dialog's path becomes the image |
| Session.Model.OnFilesDropped | main.py:132-135 | the last dropped file becomes the image |
| Session.Model.OnImagesListed | main.py:151-158 | the first listed image is selected, and an empty list fails |
| Session.Model.OnHeader | main.py:242-244 | only the header text changes |
| Session.Model.OnFooter | main.py:262-264 | only the footer text changes |
| Session.Model.OnHeaderSmaller | main.py:245-248 | the settings become `HeaderSmaller` of the old ones |
| Session.Model.OnHeaderBigger | main.py:249-252 | the settings become `HeaderBigger` of the old ones |
| Session.Model.OnFooterSmaller | main.py:265-268 | the settings become `FooterSmaller` of the old ones |
| Session.Model.OnFooterBigger | main.py:269-272 | the settings become `FooterBigger` of the old ones |
| Session.Model.OnHeaderAlign | main.py:253-261 | only the header alignment changes |
| Session.Model.OnFooterAlign | main.py:273-281 | only the footer alignment changes |
| Session.Model.Generate | main.py:51-82 | `generate` produces exactly `Generated` of the current settings; the cache stays valid and keeps every entry it had |
| Session.Captions | main.py:56-77 | the captions are the upper-cased texts, as wide as the picture less both paddings, in Impact scaled to the height; the cache stays valid and keeps every entry it had |
| Session.Compose | main.py:54-78 | the page holds the background, header and footer in that order, at their positions and anchors |
| Session.Paint | main.py:79-81 | rendering the page on a fresh picture draws exactly the page's commands; the cache stays valid and keeps every entry it had |
| Session.SplitExt | main.py:25 | base and extension join back to the name, and the extension is empty or a dot followed by no dot or separator |
| Session.SplitExtFinds | main.py:25 | an extension is found exactly when the last path component has a last dot with something other than dots before it |
| Session.SplitExtExamples | main.py:25 | `cat.png` splits into `cat` and `.png`; `.bashrc` and `a.b/c` have no extension |
| Session.ReplaceChar | main.py:27 | each `-` becomes a space, and everything else is kept |
| Session.EntriesExact | main.py:19-29 | an entry is listed exactly when it comes from a name with an image extension |
| Session.EntryPath | main.py:28 | the file name can be read back from the entry's path |
| Session.LoadImages | main.py:19-29 | the loop lists exactly the specified entries, in order |

## Left out

- The wx user interface is not modelled. This covers window layout, menus, the toolbar, `BitmapView` (its scaling is float arithmetic), the file dialogs themselves (their result is a parameter) and `on_exit`.
- `on_save` (JPEG export) is not modelled. It is file output.
- The regeneration after every handler (`on_change`) is not modelled. The handlers are modelled as changes to the settings, and `Generate` as a separate operation.
- File existence, file reading, URL download and image decoding are the `Loader` oracle. The files a cache sees are assumed not to change while it lives. A download error is the `Failure` outcome.
- `os.listdir` is not modelled: `LoadImages` takes the directory's names as input. `os.path.join` becomes `"images/" + name`, which fixes the POSIX separator `/`: on Windows `os.path.join` puts a backslash there, and the model does not follow it.
- The regular-expression engine is not modelled. The `(\s+)` split is specified directly as alternating maximal runs.
- Real font metrics and rasterisation are not modelled. `GetTextExtent` is an abstract function of font and string, and drawing is a command trace.
- `DEFAULT_CACHE` and its module-level delegates are one `Cache` object, passed explicitly to every operation that uses it.
- Unicode and Python 2's locale-dependent `upper()` are not modelled. Only ASCII letters are upper-cased.
- Session.FontSize: the point size is computed on exact rationals, while the source multiplies by the float `size / 200.0`. The results can differ when rounding pushes the float product across an integer.
- Session.FontSizeBounds: its bounds describe that exact computation, not the float product of the source.
- Python's duck typing is not modelled. Text alignment is the three constants, so an arbitrary integer (drawn centred by the source) cannot be expressed. Control keyword arguments beyond position and anchor, and `Text` options such as `shadow`, are fields of a fixed record.
- Resources.MakeColour: colour components are bytes (0..255) by type. `wx.Colour` raises for a component outside that range, and `get_color` then stores nothing; that error path is not modelled, so `ResolveColour` and `Cache.GetColor` always succeed on the keys the model admits.
- wx truncates a fractional device origin to whole pixels. The model keeps the exact value.
- Nested clipping regions are not modelled. A new region replaces the active one, because every control destroys its region before the next control sets one.
- Wrapping is not idempotent in the source, and the model does not claim it. With one-pixel characters and width 3, `"x yyyyy "` wraps to `['x', 'yyyyy', '']`, while wrapping `"x\nyyyyy\n"` again gives `['x', 'yyyyy']`: the empty word after the overflowing last gap becomes a line of its own, and `splitlines` drops it when the lines are joined and wrapped again.

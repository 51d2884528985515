# gif-striper core, modelled in Dafny

gif-striper combines seven weekday animations, Monday to Sunday, into one horizontal strip GIF of 1750×244 pixels. This project models the integer and sequence logic that decides how the strip is built:

- the output frame count, which is the minimum of the seven source frame counts (`MinOf`);
- the resampling filter chosen by the integer setting (`GetInterpolation`);
- the shared palette (`CreatePalette`): two reserved colours, then each first frame's quantized colours under a per-image budget of floor(254/N); or the fixed Plan 9 palette when quantization is off;
- the geometry of the seven weekday slots and the separator overlay;
- the frame loop: each frame gets a fresh canvas and eight draws, and is appended with delay 1 and disposal 2 ("restore to background", section 23 of the GIF89a specification).

Files and modules:

- `frames.dfy`, module `Frames`: the minimum as a function, and the loop that computes it.
- `resampling.dfy`, module `Resampling`: the four filters and the selector mapping.
- `palette.dfy`, module `Palette`: colours, the colour budget, the palette as a function, the `CreatePalette` loop and lemmas about its length and order.
- `layout.dfy`, module `Layout`: rectangles, the draw records, the slot table as the source writes it, one frame's draw list, and lemmas about offsets, reads and coverage.
- `compositor.dfy`, module `Compositor`:
  - `Canvas`, a paletted canvas whose pixels are replaced by an ordered log of draws;
  - `Animation`, which holds the growing `images`, `delays` and `disposal` lists and runs the frame loop;
  - `Draw`, the whole run.

Resampling, median-cut quantization and alpha blending happen in libraries whose code is not part of this model:

- A draw is recorded rather than computed. The record holds the destination rectangle, the source, the source point, the mask index and the mask anchor.
- A resized weekday frame is recorded as (weekday, frame index, target size, filter).
- The quantizer is a function parameter `quantize(image, budget)`.
- The Plan 9 palette is a parameter `plan9`.

Points where the code behaves differently from what one might expect; the model follows the code:

- With zero images, one might expect `CreatePalette` to reject the input. The code does not fail. `254 / float64(0)` is +Inf, and the budget derived from it is never used, because the loop over the images does not run. The code returns only the two reserved colours, and so does `Palette.CreatePalette`.
- One might expect the palette length to be exactly `2 + N * floor(254/N)`. The code guarantees only an upper bound, because the quantizer may return fewer colours than its budget. `Palette.PaletteFits` proves the bound. `Palette.PaletteLengthExact` proves the exact length under the extra assumption that every call fills its budget.
- One might expect a source with zero frames to give an empty output. When quantization is on, the code reads frame 0 of every source (Source/stripe.go:173) before it computes the frame count, so such a source makes it fail. `Compositor.Draw` therefore requires at least one frame per source when quantization is on. With quantization off, a source with zero frames gives zero output frames.

## Model

| member | source | states |
|---|---|---|
| Frames.Min | Source/stripe.go:90-99 | the minimum of a non-empty list is at most every element and is one of the elements |
| Frames.MinOf | Source/stripe.go:90-100 | the loop that starts from `vars[0]` and lowers it returns `Min(vars)`: at most every argument, and equal to one of them |
| Frames.BelowMin | Source/stripe.go:178-198 | a frame index is below the frame count exactly when it is below every source's count, so frame i exists in all seven sources |
| Resampling.GetInterpolation | Source/stripe.go:102-115 | the result is nearest-neighbour exactly when the selector is outside 1..3; for selectors 0..3 the filter's selector is the input |
| Resampling.SelectorRoundTrip | Source/stripe.go:102-111 | every one of the four filters is produced by its own selector |
| Resampling.OutOfRangeIsNearest | Source/stripe.go:112-113 | a negative selector, or one above 3, gives the same filter as selector 0 |
| Palette.MaxColor | Source/stripe.go:50 | the budget m for N ≥ 1 images is floor(254/N): N·m ≤ 254 < N·(m+1) |
| Palette.PaletteOf | Source/stripe.go:51-53 | the palette has entry 0 transparent and entry 1 white, whatever the images |
| Palette.CreatePalette | Source/stripe.go:46-63 | the append loop returns the two reserved colours followed by every image's quantized colours, in input order, each quantized with budget floor(254/N) |
| Palette.QuantizedAppend | Source/stripe.go:54-58 | the quantized colours of two consecutive groups of images are the first group's colours followed by the second's |
| Palette.QuantizedInOrder | Source/stripe.go:54-58 | image k's colours come right after the colours of images 0..k-1 and right before those of the later images |
| Palette.QuantizedLength | Source/stripe.go:56-58 | if each quantizer call returns at most m colours, N images contribute at most N·m colours |
| Palette.QuantizedLengthExact | Source/stripe.go:56-58 | if each quantizer call returns exactly m colours, N images contribute exactly N·m colours |
| Palette.PaletteFits | Source/stripe.go:50-58 | with a quantizer that keeps to its budget, the palette has at most 2 + N·floor(254/N) ≤ 256 entries |
| Palette.PaletteLengthExact | Source/stripe.go:50-58 | with a quantizer that always fills its budget, the palette has exactly 2 + N·floor(254/N) entries |
| Palette.WeekBudget | Source/stripe.go:173 | for seven images the budget is 36 colours per image, and with a quantizer that keeps to it the palette has at most 2 + 7·36 = 254 entries |
| Layout.SlotOp | Source/stripe.go:186-198 | slot k at offset off draws into (-15+250k+off, -10)–(265+250k+off, 254); the rectangle is 280×264, the size of the resize target; mask 0 for Monday, 2 for Sunday, 1 otherwise; mask anchor (10+off, 0); the source is weekday k's frame resized to 280×264 with the chosen filter, drawn from its origin |
| Layout.FrameOps | Source/stripe.go:186-200 | a frame is eight draws: Monday to Sunday, in that order, each from that weekday's frame i resized to 280×264 with the chosen filter; then the separator image over the whole canvas (0,0)–(1750,244) from the origin, without a mask |
| Layout.OffsetIsLocal | Source/stripe.go:186-198 | adding d to weekday k's offset shifts that slot's rectangle x-bounds and mask anchor x by exactly d; every other draw of the frame stays the same |
| Layout.FrameReadsWithin | Source/stripe.go:186-198 | every source frame that frame i reads exists exactly when i is below all seven frame counts |
| Layout.SlotsCoverCanvas | Source/stripe.go:186-198 | if the outer offsets stay within 15 px and neighbouring offsets differ by at most 30, every canvas column 0..1749 lies inside some slot's rectangle |
| Compositor.Canvas.NewPaletted | Source/stripe.go:184 | a new canvas has the given bounds and palette and no draws yet |
| Compositor.Canvas.DrawMask | Source/stripe.go:186-200 | a draw is applied after all earlier draws on the same canvas |
| Compositor.Canvas.DrawFrame | Source/stripe.go:186-200 | the seven masked weekday draws Mon..Sun and then the separator are appended to the canvas's draws, in that order: exactly `FrameOps(frame, …)` |
| Compositor.Animation.constructor | Source/stripe.go:159-161 | the images, delays and disposal lists start empty |
| Compositor.Animation.Render | Source/stripe.go:182-206 | after the loop there are exactly frameCount frames. Every frame is a distinct fresh 1750×244 canvas with the chosen palette, and frame i carries exactly `FrameOps(i, …)`. The three lists have the same length, every delay is 1 and every disposal is 0x02 |
| Compositor.Draw | Source/stripe.go:154-206 | the palette is built from the seven first frames when quantization is on, and is the Plan 9 palette otherwise. The frame count is the minimum of the seven source frame counts. Every output frame reads only in-range source frames and uses the filter chosen by the setting |
| Compositor.ChosenPalette | Source/stripe.go:171-176 | with quantization off the palette is the Plan 9 palette; with it on, it is transparent, white, then the quantized colours of each source's first frame in weekday order, with budget floor(254/N) |
| Compositor.ChosenPaletteFits | Source/stripe.go:171-176 | the chosen palette never exceeds 256 entries, given a 256-entry Plan 9 palette and a quantizer within its 36-colour budget; a quantized palette starts with transparent and white |

## Left out

- Loading settings from `settings.json` and decoding the JSON (Source/stripe.go:20-26, 121-133): this is file I/O. The model takes the resulting offsets, interpolation selector and quantization flag as a `Settings` value. `Draw` requires at least seven offsets, because the source indexes `Offset[0..6]`.
- `Check`, `LoadPNG`, `LoadGIF`, and writing the output with `gif.EncodeAll` (Source/stripe.go:34-44, 65-88, 209-219): these are file access, codecs, console prompts and process exit. The sources arrive as decoded frame sequences. The run returns the `Animation` instead of writing it.
- `TimeTrack`, the console messages and `main` (Source/stripe.go:28-31, 223-228): these only print and measure time.
- Median-cut quantization and `resize.Resize`: these are foreign libraries, and the resampling uses floating point. The quantizer is a parameter. Its budget is assumed only where a lemma says so. A resize is recorded as a `Resized` source.
- Pixel work in `draw.DrawMask` and `draw.Draw` (alpha-over blending, clipping, mapping to the nearest palette colour): a canvas keeps its ordered list of draw records instead of pixels. The compositing operator is `draw.Over` in every call, so it is not recorded.
- `math.Floor(254 / float64(N))` (Source/stripe.go:50) becomes integer division for N ≥ 1. For N ≥ 1 the two agree. The value for N = 0 is never used.
- The canvas allocated at Source/stripe.go:155: it is replaced at Source/stripe.go:184 before any use.
- The Plan 9 palette's 256 entries: that table belongs to the Go image library, so it is a parameter.
- Colours: the reserved entries are `image.Transparent` and `image.White`, uniform images that serve as colours through their `RGBA` method. In the model every colour is one premultiplied 16-bit RGBA value, and these two are (0, 0, 0, 0) and (0xffff, 0xffff, 0xffff, 0xffff).
- Offsets: Go's 64-bit `int` arithmetic on the offsets (`-15+Offset[k]`, `265+Offset[k]`, `10+Offset[k]`) is modelled with unbounded integers, so wrap-around for offsets near the 64-bit limits is not captured. The exact shift by d in `Layout.OffsetIsLocal` relies on this.

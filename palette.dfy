/** The shared palette: two reserved colours followed by every image's quantized colours. */
module Palette {

  /** A colour as its 16-bit alpha-premultiplied red, green, blue and alpha channels. */
  datatype Color = Color(r: int, g: int, b: int, a: int)

  /** Fully transparent: palette entry 0. */
  const Transparent: Color := Color(0, 0, 0, 0)
  /** Opaque white: palette entry 1. */
  const White: Color := Color(0xffff, 0xffff, 0xffff, 0xffff)
  /** Entries left for quantized colours once the two reserved ones are in. */
  const Room: nat := 254
  /** A GIF colour table holds at most 256 entries. */
  const MaxEntries: nat := 256

  /** The per-image colour budget floor(254 / n). */
  function MaxColor(n: nat): (m: nat)
    requires n >= 1
    ensures n * m <= Room < n * (m + 1)
  {
    Room / n
  }

  /** The colours `quantize` picks for each image, with budget m, concatenated in input order. */
  function Quantized<Img>(images: seq<Img>, quantize: (Img, nat) -> seq<Color>, m: nat): seq<Color>
  {
    if images == [] then []
    else Quantized(images[..|images| - 1], quantize, m) + quantize(images[|images| - 1], m)
  }

  /** The palette CreatePalette builds from `images`. */
  function PaletteOf<Img>(images: seq<Img>, quantize: (Img, nat) -> seq<Color>): (pal: seq<Color>)
    ensures |pal| >= 2 && pal[0] == Transparent && pal[1] == White
  {
    [Transparent, White] + if images == [] then [] else Quantized(images, quantize, MaxColor(|images|))
  }

  /** Builds the shared palette, appending each image's quantized colours after the two reserved ones. */
  method CreatePalette<Img>(images: seq<Img>, quantize: (Img, nat) -> seq<Color>) returns (pallete: seq<Color>)
    ensures pallete == PaletteOf(images, quantize)
  {
    var iLen := |images|;
    // With no images the budget is never handed to the quantizer: the loop does not run.
    var maxColor := if iLen >= 1 then MaxColor(iLen) else 0;
    pallete := [];
    pallete := pallete + [Transparent];
    pallete := pallete + [White];
    var index := 0;
    while index < iLen
      invariant 0 <= index <= iLen
      invariant pallete == [Transparent, White] + Quantized(images[..index], quantize, maxColor)
    {
      var pal := quantize(images[index], maxColor);
      assert images[..index + 1][..index] == images[..index];
      pallete := pallete + pal;
      index := index + 1;
    }
    assert images[..iLen] == images;
  }

  /** Quantizing a concatenation yields the two groups of colours one after the other. */
  lemma {:induction false} QuantizedAppend<Img>(xs: seq<Img>, ys: seq<Img>, quantize: (Img, nat) -> seq<Color>, m: nat)
    ensures Quantized(xs + ys, quantize, m) == Quantized(xs, quantize, m) + Quantized(ys, quantize, m)
    decreases |ys|
  {
    if ys == [] {
      assert xs + ys == xs;
    } else {
      var init := ys[..|ys| - 1];
      assert (xs + ys)[..|xs + ys| - 1] == xs + init;
      QuantizedAppend(xs, init, quantize, m);
    }
  }

  /** Image k's colours sit right after those of the images before it. */
  lemma QuantizedInOrder<Img>(images: seq<Img>, quantize: (Img, nat) -> seq<Color>, m: nat, k: nat)
    requires k < |images|
    ensures Quantized(images, quantize, m) ==
            Quantized(images[..k], quantize, m) + quantize(images[k], m) + Quantized(images[k + 1..], quantize, m)
  {
    assert images == images[..k + 1] + images[k + 1..];
    QuantizedAppend(images[..k + 1], images[k + 1..], quantize, m);
    assert images[..k + 1][..k] == images[..k];
  }

  /** When the quantizer keeps to its budget m, n images give at most n * m colours. */
  lemma {:induction false} QuantizedLength<Img>(images: seq<Img>, quantize: (Img, nat) -> seq<Color>, m: nat)
    requires forall j :: 0 <= j < |images| ==> |quantize(images[j], m)| <= m
    ensures |Quantized(images, quantize, m)| <= |images| * m
    decreases |images|
  {
    if images != [] {
      var n := |images|;
      QuantizedLength(images[..n - 1], quantize, m);
      assert (n - 1) * m + m == n * m;
    }
  }

  /** When the quantizer returns exactly m colours for each image, n images give exactly n * m. */
  lemma {:induction false} QuantizedLengthExact<Img>(images: seq<Img>, quantize: (Img, nat) -> seq<Color>, m: nat)
    requires forall j :: 0 <= j < |images| ==> |quantize(images[j], m)| == m
    ensures |Quantized(images, quantize, m)| == |images| * m
    decreases |images|
  {
    if images != [] {
      var n := |images|;
      QuantizedLengthExact(images[..n - 1], quantize, m);
      assert (n - 1) * m + m == n * m;
    }
  }

  /** A quantizer that keeps to the budget it is given yields a palette of at most 256 entries. */
  lemma PaletteFits<Img>(images: seq<Img>, quantize: (Img, nat) -> seq<Color>)
    requires |images| >= 1
    requires forall j :: 0 <= j < |images| ==> |quantize(images[j], MaxColor(|images|))| <= MaxColor(|images|)
    ensures |PaletteOf(images, quantize)| <= 2 + |images| * MaxColor(|images|) <= MaxEntries
  {
    QuantizedLength(images, quantize, MaxColor(|images|));
  }

  /** A quantizer that always fills its budget yields exactly 2 + n * floor(254 / n) entries. */
  lemma PaletteLengthExact<Img>(images: seq<Img>, quantize: (Img, nat) -> seq<Color>)
    requires |images| >= 1
    requires forall j :: 0 <= j < |images| ==> |quantize(images[j], MaxColor(|images|))| == MaxColor(|images|)
    ensures |PaletteOf(images, quantize)| == 2 + |images| * MaxColor(|images|)
  {
    QuantizedLengthExact(images, quantize, MaxColor(|images|));
  }

  /** The seven weekday images get 36 colours each, so their palette has at most 254 entries. */
  lemma WeekBudget<Img>(images: seq<Img>, quantize: (Img, nat) -> seq<Color>)
    requires |images| == 7
    requires forall j :: 0 <= j < |images| ==> |quantize(images[j], 36)| <= 36
    ensures MaxColor(|images|) == 36
    ensures |PaletteOf(images, quantize)| <= 2 + 7 * 36 == 254
  {
    assert MaxColor(7) == 36;
    PaletteFits(images, quantize);
  }
}

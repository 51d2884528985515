/** The compositing run: the palette choice, the frame count, and the loop that draws every output frame. */
module Compositor {
  import opened Frames
  import opened Resampling
  import opened Palette
  import opened Layout

  /** Delay of every output frame, in hundredths of a second. */
  const Delay: int := 1
  /** Disposal method 2, "restore to background", of the GIF89a Graphic Control Extension (section 23). */
  const DisposalValue: bv8 := 0x02

  /** The settings the compositing run uses. */
  datatype Settings = Settings(offsets: seq<int>, interpolation: int, quantization: bool)

  /** A paletted canvas; the draws made onto it are kept, in order, instead of its pixels. */
  class Canvas {
    const bounds: Rect
    const palette: seq<Color>
    var log: seq<DrawOp>

    /** A fresh canvas with every pixel at index 0. */
    constructor NewPaletted(r: Rect, p: seq<Color>)
      ensures bounds == r && palette == p && log == []
    {
      bounds := r;
      palette := p;
      log := [];
    }

    /** Blends one draw onto the canvas, after all earlier ones. */
    method DrawMask(op: DrawOp)
      modifies this
      ensures log == old(log) + [op]
    {
      log := log + [op];
    }

    /** The eight draws of output frame `frame`: the seven weekday panels Mon..Sun, then the separator. */
    method DrawFrame(frame: nat, off: seq<int>, filter: Interpolation)
      requires |off| >= Weekdays
      modifies this
      ensures log == old(log) + FrameOps(frame, off, filter)
    {
      DrawMask(SlotOp(0, frame, off[0], filter));
      DrawMask(SlotOp(1, frame, off[1], filter));
      DrawMask(SlotOp(2, frame, off[2], filter));
      DrawMask(SlotOp(3, frame, off[3], filter));
      DrawMask(SlotOp(4, frame, off[4], filter));
      DrawMask(SlotOp(5, frame, off[5], filter));
      DrawMask(SlotOp(6, frame, off[6], filter));
      DrawMask(SeparatorOp());
    }

    /** This canvas is output frame `frame`: full size, the given palette, and exactly that frame's draws. */
    ghost predicate IsFrame(frame: nat, off: seq<int>, filter: Interpolation, pal: seq<Color>)
      reads this
      requires |off| >= Weekdays
    {
      bounds == Rect(0, 0, Width, Height) && palette == pal && log == FrameOps(frame, off, filter)
    }
  }

  /** The output animation: frames with their delays and disposal methods, as the encoder takes them. */
  class Animation {
    var images: seq<Canvas>
    var delays: seq<int>
    var disposal: seq<bv8>

    /** The three lists run in parallel. */
    ghost predicate Valid()
      reads this
    {
      |images| == |delays| == |disposal|
    }

    constructor ()
      ensures Valid() && images == [] && delays == [] && disposal == []
    {
      images := [];
      delays := [];
      disposal := [];
    }

    /** Draws frames 0 .. frameCount - 1 onto fresh canvases and appends each with its delay and disposal. */
    method Render(frameCount: nat, off: seq<int>, filter: Interpolation, pal: seq<Color>)
      requires |off| >= Weekdays
      requires images == [] && delays == [] && disposal == []
      modifies this
      ensures Valid() && |images| == frameCount
      ensures forall i :: 0 <= i < frameCount ==> fresh(images[i]) && images[i].IsFrame(i, off, filter, pal)
      ensures forall i, j :: 0 <= i < j < frameCount ==> images[i] != images[j]
      ensures forall i :: 0 <= i < frameCount ==> delays[i] == Delay && disposal[i] == DisposalValue
    {
      var i := 0;
      while i < frameCount
        invariant 0 <= i <= frameCount
        invariant Valid() && |images| == i
        invariant forall j :: 0 <= j < i ==> fresh(images[j]) && images[j].IsFrame(j, off, filter, pal)
        invariant forall j, l :: 0 <= j < l < i ==> images[j] != images[l]
        invariant forall j :: 0 <= j < i ==> delays[j] == Delay && disposal[j] == DisposalValue
      {
        var stripe := new Canvas.NewPaletted(Rect(0, 0, Width, Height), pal);
        stripe.DrawFrame(i, off, filter);
        images := images + [stripe];
        delays := delays + [Delay];
        disposal := disposal + [DisposalValue];
        i := i + 1;
      }
    }
  }

  /** The whole compositing run over seven decoded sources (Mon..Sun), each a sequence of frames.
      `quantize` is the median-cut quantizer and `plan9` the fixed default palette. */
  method Draw<Img>(props: Settings, sources: seq<seq<Img>>, quantize: (Img, nat) -> seq<Color>, plan9: seq<Color>)
    returns (gif: Animation, frameCount: int)
    requires |sources| == Weekdays
    requires |props.offsets| >= Weekdays
    requires props.quantization ==> forall k :: 0 <= k < Weekdays ==> |sources[k]| >= 1
    ensures fresh(gif) && gif.Valid()
    ensures frameCount == Min(Counts(sources)) && |gif.images| == frameCount
    ensures forall i :: 0 <= i < frameCount ==>
              gif.images[i].IsFrame(i, props.offsets, GetInterpolation(props.interpolation), ChosenPalette(props, sources, quantize, plan9))
    ensures forall i :: 0 <= i < frameCount ==> ReadsWithin(gif.images[i].log, Counts(sources))
    ensures forall i :: 0 <= i < frameCount ==> gif.delays[i] == Delay && gif.disposal[i] == DisposalValue
  {
    var mon, tue, wed, thu, fri, sat, sun := sources[0], sources[1], sources[2], sources[3], sources[4], sources[5], sources[6];
    var pal: seq<Color>;
    if props.quantization {
      var firsts := [mon[0], tue[0], wed[0], thu[0], fri[0], sat[0], sun[0]];
      assert firsts == FirstFrames(sources);
      pal := CreatePalette(firsts, quantize);
    } else {
      pal := plan9;
    }
    assert pal == ChosenPalette(props, sources, quantize, plan9);
    var counts := [|mon|, |tue|, |wed|, |thu|, |fri|, |sat|, |sun|];
    assert counts == Counts(sources);
    frameCount := MinOf(counts);
    var r := GetInterpolation(props.interpolation);
    gif := new Animation();
    gif.Render(frameCount, props.offsets, r, pal);
    forall i | 0 <= i < frameCount
      ensures ReadsWithin(gif.images[i].log, Counts(sources))
    {
      FrameReadsWithin(i, props.offsets, r, Counts(sources));
    }
  }

  /** The frame count of each source. */
  function Counts<Img>(sources: seq<seq<Img>>): seq<int>
  {
    seq(|sources|, k requires 0 <= k < |sources| => |sources[k]|)
  }

  /** The first frame of each source: the images the shared palette is built from. */
  function FirstFrames<Img>(sources: seq<seq<Img>>): seq<Img>
    requires forall k :: 0 <= k < |sources| ==> |sources[k]| >= 1
  {
    seq(|sources|, k requires 0 <= k < |sources| => sources[k][0])
  }

  /** The palette every frame uses: built from the first frames when quantization is on, Plan 9 otherwise. */
  function ChosenPalette<Img>(props: Settings, sources: seq<seq<Img>>, quantize: (Img, nat) -> seq<Color>, plan9: seq<Color>): (pal: seq<Color>)
    requires props.quantization ==> forall k :: 0 <= k < |sources| ==> |sources[k]| >= 1
    ensures !props.quantization ==> pal == plan9
    ensures props.quantization && |sources| >= 1 ==>
              pal == [Transparent, White] + Quantized(FirstFrames(sources), quantize, MaxColor(|sources|))
  {
    if props.quantization then PaletteOf(FirstFrames(sources), quantize) else plan9
  }

  /** The chosen palette never exceeds 256 entries, given a 256-entry Plan 9 palette and a quantizer within its budget;
      a quantized palette starts with the two reserved colours. */
  lemma ChosenPaletteFits<Img>(props: Settings, sources: seq<seq<Img>>, quantize: (Img, nat) -> seq<Color>, plan9: seq<Color>)
    requires |sources| == Weekdays && |plan9| == MaxEntries
    requires props.quantization ==> forall k :: 0 <= k < Weekdays ==> |sources[k]| >= 1
    requires forall k :: 0 <= k < Weekdays && |sources[k]| >= 1 ==> |quantize(sources[k][0], 36)| <= 36
    ensures |ChosenPalette(props, sources, quantize, plan9)| <= MaxEntries
    ensures props.quantization ==>
              |ChosenPalette(props, sources, quantize, plan9)| <= 2 + 7 * 36 &&
              ChosenPalette(props, sources, quantize, plan9)[..2] == [Transparent, White]
  {
    if props.quantization {
      var firsts := FirstFrames(sources);
      WeekBudget(firsts, quantize);
    }
  }
}

/** The fixed strip layout: canvas size, the seven weekday slots, and the draw calls that make one frame. */
module Layout {
  import opened Resampling

  const Width: int := 1750
  const Height: int := 244
  const Weekdays: nat := 7
  /** Every weekday panel is resized to this size before it is blended in. */
  const PanelWidth: int := 280
  const PanelHeight: int := 264
  /** Horizontal inset of the mask anchor, before the weekday's offset. */
  const MaskInset: int := 10
  /** Index of the separator image among the four loaded masks. */
  const Separator: nat := 3

  datatype Point = Point(x: int, y: int)

  /** The rectangle [x0, x1) x [y0, y1). */
  datatype Rect = Rect(x0: int, y0: int, x1: int, y1: int)
  {
    function Dx(): int { x1 - x0 }
    function Dy(): int { y1 - y0 }
  }

  /** What a draw call paints from: a resized weekday frame, or one of the loaded mask images. */
  datatype Source =
    | Resized(weekday: nat, frame: nat, width: int, height: int, filter: Interpolation)
    | MaskImage(index: nat)

  /** The mask a draw call blends through, anchored at `point`; NoMask for a plain draw. */
  datatype MaskRef = NoMask | Mask(index: nat, point: Point)

  /** One alpha-over draw call onto the canvas. */
  datatype DrawOp = DrawOp(dst: Rect, src: Source, srcPoint: Point, mask: MaskRef)

  /** Left and right x-bounds of each slot before its offset, and its mask, as the seven calls write them. */
  const BaseLeft: seq<int> := [-15, 235, 485, 735, 985, 1235, 1485]
  const BaseRight: seq<int> := [265, 515, 765, 1015, 1265, 1515, 1765]
  const SlotMask: seq<nat> := [0, 1, 1, 1, 1, 1, 2]

  /** The masked draw of weekday k's frame at horizontal offset `off`. */
  function SlotOp(k: nat, frame: nat, off: int, filter: Interpolation): (op: DrawOp)
    requires k < Weekdays
    ensures op == DrawOp(Rect(-15 + 250 * k + off, -10, 265 + 250 * k + off, Height + 10),
                         Resized(k, frame, PanelWidth, PanelHeight, filter),
                         Point(0, 0),
                         Mask(if k == 0 then 0 else if k == Weekdays - 1 then 2 else 1, Point(MaskInset + off, 0)))
    ensures op.dst.Dx() == PanelWidth && op.dst.Dy() == PanelHeight
  {
    DrawOp(Rect(BaseLeft[k] + off, -10, BaseRight[k] + off, Height + 10),
           Resized(k, frame, PanelWidth, PanelHeight, filter),
           Point(0, 0),
           Mask(SlotMask[k], Point(MaskInset + off, 0)))
  }

  /** The separator drawn over the whole canvas from the origin, without a mask. */
  function SeparatorOp(): DrawOp
  {
    DrawOp(Rect(0, 0, Width, Height), MaskImage(Separator), Point(0, 0), NoMask)
  }

  /** The draw calls that build output frame `frame`, in the order they are made. */
  function FrameOps(frame: nat, off: seq<int>, filter: Interpolation): (ops: seq<DrawOp>)
    requires |off| >= Weekdays
    ensures |ops| == Weekdays + 1
    ensures forall k :: 0 <= k < Weekdays ==> ops[k] == SlotOp(k, frame, off[k], filter)
    ensures ops[Weekdays] == DrawOp(Rect(0, 0, Width, Height), MaskImage(Separator), Point(0, 0), NoMask)
  {
    [SlotOp(0, frame, off[0], filter), SlotOp(1, frame, off[1], filter), SlotOp(2, frame, off[2], filter),
     SlotOp(3, frame, off[3], filter), SlotOp(4, frame, off[4], filter), SlotOp(5, frame, off[5], filter),
     SlotOp(6, frame, off[6], filter), SeparatorOp()]
  }

  /** The draw moved right by d: destination x-bounds and mask anchor x. */
  function Shifted(op: DrawOp, d: int): DrawOp
  {
    var mask := if op.mask.Mask? then op.mask.(point := Point(op.mask.point.x + d, op.mask.point.y)) else op.mask;
    op.(dst := op.dst.(x0 := op.dst.x0 + d, x1 := op.dst.x1 + d), mask := mask)
  }

  /** Adding d to weekday k's offset shifts that slot's draw by exactly d and leaves every other draw as it was. */
  lemma OffsetIsLocal(frame: nat, off: seq<int>, filter: Interpolation, k: nat, d: int)
    requires |off| >= Weekdays && k < Weekdays
    ensures var before := FrameOps(frame, off, filter);
            var after := FrameOps(frame, off[k := off[k] + d], filter);
            |after| == |before| &&
            after[k] == Shifted(before[k], d) &&
            forall j :: 0 <= j < |before| && j != k ==> after[j] == before[j]
  {
  }

  /** Every resized frame a draw reads exists: frame < the frame count of its weekday. */
  ghost predicate ReadsWithin(ops: seq<DrawOp>, counts: seq<int>)
  {
    forall op :: op in ops && op.src.Resized? ==> op.src.weekday < |counts| && op.src.frame < counts[op.src.weekday]
  }

  /** Frame i reads index i of each of the seven sources and nothing else. */
  lemma FrameReadsWithin(frame: nat, off: seq<int>, filter: Interpolation, counts: seq<int>)
    requires |off| >= Weekdays && |counts| == Weekdays
    ensures ReadsWithin(FrameOps(frame, off, filter), counts) <==>
            forall k :: 0 <= k < Weekdays ==> frame < counts[k]
  {
  }

  /** With outer slots within 15 pixels of their base and neighbours' offsets differing by at most 30,
      the seven destination rectangles together cover every canvas column. */
  lemma SlotsCoverCanvas(off: seq<int>, x: int)
    requires |off| >= Weekdays
    requires off[0] <= 15 && off[Weekdays - 1] >= -15
    requires forall k :: 0 <= k < Weekdays - 1 ==> off[k + 1] - off[k] <= 30
    requires 0 <= x < Width
    ensures exists k :: 0 <= k < Weekdays && SlotOp(k, 0, off[k], NearestNeighbor).dst.x0 <= x < SlotOp(k, 0, off[k], NearestNeighbor).dst.x1
  {
    CoverFrom(off, x, 0);
  }

  /** Some slot from k on covers column x, given that slot k starts at or before x. */
  lemma {:induction false} CoverFrom(off: seq<int>, x: int, k: nat)
    requires |off| >= Weekdays && k < Weekdays
    requires off[Weekdays - 1] >= -15
    requires forall k :: 0 <= k < Weekdays - 1 ==> off[k + 1] - off[k] <= 30
    requires x < Width
    requires SlotOp(k, 0, off[k], NearestNeighbor).dst.x0 <= x
    ensures exists j :: k <= j < Weekdays && SlotOp(j, 0, off[j], NearestNeighbor).dst.x0 <= x < SlotOp(j, 0, off[j], NearestNeighbor).dst.x1
    decreases Weekdays - k
  {
    if x < SlotOp(k, 0, off[k], NearestNeighbor).dst.x1 {
    } else if k == Weekdays - 1 {
      assert false;
    } else {
      assert off[k + 1] - off[k] <= 30;
      CoverFrom(off, x, k + 1);
    }
  }
}

/** Choice of the resampling filter used for every resize of a weekday panel. */
module Resampling {

  /** The four filters the configuration can select. */
  datatype Interpolation = NearestNeighbor | Bilinear | Bicubic | Lanczos3

  /** The configuration selector that names each filter. */
  function Selector(f: Interpolation): (i: int)
    ensures 0 <= i <= 3
  {
    match f
    case NearestNeighbor => 0
    case Bilinear => 1
    case Bicubic => 2
    case Lanczos3 => 3
  }

  /** Maps the integer selector to a filter; anything outside 1..3 falls back to nearest-neighbour. */
  function GetInterpolation(i: int): (f: Interpolation)
    ensures f == NearestNeighbor <==> !(1 <= i <= 3)
    ensures 0 <= i <= 3 ==> Selector(f) == i
  {
    if i == 0 then NearestNeighbor
    else if i == 1 then Bilinear
    else if i == 2 then Bicubic
    else if i == 3 then Lanczos3
    else NearestNeighbor
  }

  /** Every filter is reachable, from its own selector. */
  lemma SelectorRoundTrip(f: Interpolation)
    ensures GetInterpolation(Selector(f)) == f
  {
  }

  /** An out-of-range selector behaves exactly like selector 0. */
  lemma OutOfRangeIsNearest(i: int)
    requires i < 0 || i > 3
    ensures GetInterpolation(i) == GetInterpolation(0)
  {
  }
}

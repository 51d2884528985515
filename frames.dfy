/** Frame alignment: the output frame count is the smallest of the source frame counts. */
module Frames {

  /** The smallest element of a non-empty sequence, folded from the left. */
  function Min(s: seq<int>): (m: int)
    requires |s| > 0
    ensures forall i :: 0 <= i < |s| ==> m <= s[i]
    ensures m in s
  {
    if |s| == 1 then s[0]
    else
      var rest := Min(s[..|s| - 1]);
      if rest > s[|s| - 1] then s[|s| - 1] else rest
  }

  /** Variadic minimum: starts from the first argument and lowers it while scanning them all. */
  method MinOf(vars: seq<int>) returns (min: int)
    requires |vars| > 0
    ensures min == Min(vars)
    ensures forall i :: 0 <= i < |vars| ==> min <= vars[i]
    ensures min in vars
  {
    min := vars[0];
    var n := 0;
    while n < |vars|
      invariant 0 <= n <= |vars|
      invariant n == 0 ==> min == vars[0]
      invariant n > 0 ==> min == Min(vars[..n])
    {
      var i := vars[n];
      if min > i {
        min := i;
      }
      assert vars[..n + 1][..n] == vars[..n];
      n := n + 1;
    }
    assert vars[..|vars|] == vars;
  }

  /** A frame index is below the minimum exactly when it is below every count: frame i exists in every source. */
  lemma BelowMin(s: seq<int>, frame: int)
    requires |s| > 0
    ensures frame < Min(s) <==> forall i :: 0 <= i < |s| ==> frame < s[i]
  {
  }
}

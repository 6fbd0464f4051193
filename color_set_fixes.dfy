/** The two `ColorSet` lookups with their boundary bugs corrected: `get_val`
    clamps to the last index `n - 1` instead of `n`, and `get_index` guards
    with `i >= len` instead of `i + 1 >= len`. Each is tied back to the
    as-written lookup and shown to differ from it on a concrete input. */
module ColorSetFixes {
  import opened Colors
  import opened ColorSets

  /** The index `get_val` evidently means: clamped to the last position. */
  function FixedShadeIndex(n: nat, x: real): (i: int)
    requires n > 0
    ensures 0 <= i < n
  {
    Clamp(Scaled(n, x), 0.0, n as real - 1.0).Floor
  }

  /** `get_val` with the clamp bound `n - 1`: total, never panics. */
  function FixedGetVal(cs: ColorSet, x: real): (r: Color)
    ensures |cs.shades| == 0 ==> r == WHITE
    ensures |cs.shades| > 0 ==> r in cs.shades
  {
    var n := |cs.shades|;
    if n == 0 then WHITE else cs.shades[FixedShadeIndex(n, x)]
  }

  /** `get_index` with the guard `i >= len`: every shade is reachable. */
  function FixedGetIndex(cs: ColorSet, i: nat): (r: Color)
    ensures i >= |cs.shades| ==> r == WHITE
    ensures i < |cs.shades| ==> r == cs.shades[i]
  {
    if i >= |cs.shades| then WHITE else cs.shades[i]
  }

  /** Wherever the written `get_val` returns a shade, the corrected one
      returns the same shade. */
  lemma FixedGetValAgrees(cs: ColorSet, x: real)
    requires GetVal(cs, x).Ok?
    ensures GetVal(cs, x) == Ok(FixedGetVal(cs, x))
  {
    var n := |cs.shades|;
    if n > 0 {
      GetValPanicsIff(cs, x);
      var v := Scaled(n, x);
      var top := n as real;
      assert v < top;
      if v > top - 1.0 {
        assert Clamp(v, 0.0, top) == v;
        assert v.Floor == n - 1;
        assert Clamp(v, 0.0, top - 1.0) == top - 1.0;
        assert ShadeIndex(n, x) == n - 1 == FixedShadeIndex(n, x);
      } else {
        assert Clamp(v, 0.0, top) == Clamp(v, 0.0, top - 1.0);
        assert ShadeIndex(n, x) == FixedShadeIndex(n, x);
      }
    }
  }

  /** In particular the two agree on every percentile in 0..1000. */
  lemma FixedGetValAgreesInDomain(cs: ColorSet, x: real)
    requires 0.0 <= x <= 1000.0
    ensures GetVal(cs, x) == Ok(FixedGetVal(cs, x))
  {
    if |cs.shades| > 0 {
      GetValInDomain(cs, x);
    }
    FixedGetValAgrees(cs, x);
  }

  /** The corrected index is monotone in the percentile, for every
      percentile. */
  lemma FixedShadeIndexMonotone(n: nat, x1: real, x2: real)
    requires n > 0 && x1 <= x2
    ensures FixedShadeIndex(n, x1) <= FixedShadeIndex(n, x2)
  {
    ScaledMonotone(n, x1, x2);
    ClampMonotone(Scaled(n, x1), Scaled(n, x2), 0.0, n as real - 1.0);
  }

  /** Every percentile at or above 1000 reads the darkest shade. */
  lemma FixedGetValDarkest(cs: ColorSet, x: real)
    requires |cs.shades| > 0 && x >= 1000.0
    ensures FixedGetVal(cs, x) == cs.shades[|cs.shades| - 1]
  {
    var n := |cs.shades|;
    ScaledMonotone(n, 1000.0, x);
    assert Scaled(n, 1000.0) == n as real - 1.0;
    assert Clamp(Scaled(n, x), 0.0, n as real - 1.0) == n as real - 1.0;
    assert FixedShadeIndex(n, x) == n - 1;
  }

  /** On the percentile where the written `get_val` panics, the corrected
      one returns the darkest shade. */
  lemma FixedGetValExample(a: Color, b: Color)
    ensures GetVal(ColorSet([a, b]), 2000.0).IndexOutOfBounds?
    ensures FixedGetVal(ColorSet([a, b]), 2000.0) == b
  {
    GetValPanicExample(a, b);
    FixedGetValDarkest(ColorSet([a, b]), 2000.0);
  }

  /** Below the last index the written and corrected `get_index` agree. */
  lemma FixedGetIndexAgrees(cs: ColorSet, i: Usize)
    requires i < USIZE_MAX && i + 1 < |cs.shades|
    ensures GetIndex(cs, i) == Ok(FixedGetIndex(cs, i))
  {}

  /** The written and corrected `get_index` differ exactly on the last
      index, and only when the last shade is not white itself. */
  lemma FixedGetIndexDiffers(cs: ColorSet, i: Usize)
    requires i < USIZE_MAX
    ensures GetIndex(cs, i) != Ok(FixedGetIndex(cs, i)) <==> i + 1 == |cs.shades| && cs.shades[i] != WHITE
  {}

  /** The corrected `get_index` reaches every shade, the last one included,
      so it returns each shade of a ramp at its own index. */
  lemma FixedGetIndexReachesAll(cs: ColorSet)
    ensures forall i :: 0 <= i < |cs.shades| ==> FixedGetIndex(cs, i) == cs.shades[i]
  {}

  /** On the last index of a two-shade ramp the written `get_index` returns
      white where the corrected one returns the darkest shade. */
  lemma FixedGetIndexExample(a: Color, b: Color)
    requires b != WHITE
    ensures GetIndex(ColorSet([a, b]), 1) == Ok(WHITE)
    ensures FixedGetIndex(ColorSet([a, b]), 1) == b
    ensures GetIndex(ColorSet([a, b]), 1) != Ok(FixedGetIndex(ColorSet([a, b]), 1))
  {}
}

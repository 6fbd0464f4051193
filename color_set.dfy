/** `ColorSet`: a ramp of shades of one colour, lightest first, and its two
    lookups, as written in the source (both lookups keep their boundary
    behaviour). */
module ColorSets {
  import opened Colors

  /** An ordered ramp of shades, lightest to darkest. Nothing enforces the
      order; the empty ramp is allowed and reads as white. */
  datatype ColorSet = ColorSet(shades: seq<Color>)

  /** What a lookup that the source performs with Rust's checked operations
      yields: a colour, or the panic Rust raises. */
  datatype Access =
    | Ok(color: Color)
    | IndexOutOfBounds(index: int, len: nat)  // `v[i]` with `i >= v.len()`
    | AddOverflow                             // `usize` addition past `usize::MAX`

  /** Rust's `v[i]` on a `Vec`: the element, or a bounds-check panic. */
  function Index(s: seq<Color>, i: int): (r: Access)
    ensures r.Ok? <==> 0 <= i < |s|
    ensures r.Ok? ==> r.color == s[i]
    ensures !r.Ok? ==> r == IndexOutOfBounds(i, |s|)
  {
    if 0 <= i < |s| then Ok(s[i]) else IndexOutOfBounds(i, |s|)
  }

  /** Rust's `f32::clamp(v, lo, hi)` on ordinary (non-NaN) values. */
  function Clamp(v: real, lo: real, hi: real): (r: real)
    requires lo <= hi
    ensures lo <= r <= hi
    ensures lo <= v <= hi ==> r == v
  {
    if v < lo then lo else if v > hi then hi else v
  }

  /** The position that percentile `x` (0..1000) takes on a ramp of `n`
      shades: `(n - 1) * (x / 1000)`, before clamping. */
  function Scaled(n: nat, x: real): real {
    (n as real - 1.0) * (x / 1000.0)
  }

  /** The index `get_val` reads: the scaled position clamped to `0..n` and
      truncated by `as usize`. The upper bound is `n`, one past the last
      index. */
  function ShadeIndex(n: nat, x: real): (i: int)
    requires n > 0
    ensures 0 <= i <= n
  {
    Clamp(Scaled(n, x), 0.0, n as real).Floor
  }

  /** `get_val(x)`: white for an empty ramp; otherwise the shade at
      `ShadeIndex`, which panics when that index is `n`. */
  function GetVal(cs: ColorSet, x: real): (r: Access)
    ensures |cs.shades| == 0 ==> r == Ok(WHITE)
    ensures r.Ok? && |cs.shades| > 0 ==> r.color in cs.shades
    ensures !r.AddOverflow?
  {
    var n := |cs.shades|;
    if n == 0 then Ok(WHITE)
    else Index(cs.shades, ShadeIndex(n, x))
  }

  /** `get_index(i)`: white when `i + 1 >= len`, otherwise `shades[i]`.
      `i + 1` is `usize` arithmetic, which panics for `i == usize::MAX`. */
  function GetIndex(cs: ColorSet, i: Usize): (r: Access)
    ensures !r.IndexOutOfBounds?
    ensures r.AddOverflow? <==> i == USIZE_MAX
  {
    if i == USIZE_MAX then AddOverflow
    else if i + 1 >= |cs.shades| then Ok(WHITE)
    else Index(cs.shades, i)
  }

  /** `ColorSet::from(color)`: a one-shade ramp. */
  function FromColor(c: Color): (cs: ColorSet)
    ensures |cs.shades| == 1 && cs.shades[0] == c
  {
    ColorSet([c])
  }

  /** `ColorSet::from(vec)`: the given shades, unchanged and in order. */
  function FromVec(v: seq<Color>): (cs: ColorSet)
    ensures cs.shades == v
  {
    ColorSet(v)
  }

  /** The derived `Default`: the empty ramp. */
  function DefaultColorSet(): (cs: ColorSet)
    ensures |cs.shades| == 0
  {
    ColorSet([])
  }

  // ---------------------------------------------------------------------
  // Properties of get_val

  /** The clamp is monotone in the clamped value. */
  lemma ClampMonotone(v1: real, v2: real, lo: real, hi: real)
    requires lo <= hi && v1 <= v2
    ensures Clamp(v1, lo, hi) <= Clamp(v2, lo, hi)
  {}

  /** Scaling by a ramp of `n >= 1` shades preserves order. */
  lemma ScaledMonotone(n: nat, x1: real, x2: real)
    requires n > 0 && x1 <= x2
    ensures Scaled(n, x1) <= Scaled(n, x2)
  {
    var k := n as real - 1.0;
    assert k >= 0.0;
    assert Scaled(n, x2) - Scaled(n, x1) == k * ((x2 - x1) / 1000.0);
  }

  /** A larger percentile never selects a lighter shade. */
  lemma ShadeIndexMonotone(n: nat, x1: real, x2: real)
    requires n > 0 && x1 <= x2
    ensures ShadeIndex(n, x1) <= ShadeIndex(n, x2)
  {
    ScaledMonotone(n, x1, x2);
    ClampMonotone(Scaled(n, x1), Scaled(n, x2), 0.0, n as real);
  }

  /** Every percentile at or below 0 reads the lightest shade. */
  lemma ShadeIndexAtOrBelowZero(n: nat, x: real)
    requires n > 0 && x <= 0.0
    ensures ShadeIndex(n, x) == 0
  {
    ScaledMonotone(n, x, 0.0);
  }

  /** For a percentile in 0..1000 the index is a valid position, `0..n-1`. */
  lemma ShadeIndexInDomain(n: nat, x: real)
    requires n > 0 && 0.0 <= x <= 1000.0
    ensures 0 <= ShadeIndex(n, x) <= n - 1
  {
    ScaledMonotone(n, x, 1000.0);
    ScaledMonotone(n, 0.0, x);
  }

  /** For a non-empty ramp and a percentile in 0..1000, `get_val` never
      reads out of range: it returns the shade at `ShadeIndex`. */
  lemma GetValInDomain(cs: ColorSet, x: real)
    requires |cs.shades| > 0 && 0.0 <= x <= 1000.0
    ensures 0 <= ShadeIndex(|cs.shades|, x) < |cs.shades|
    ensures GetVal(cs, x) == Ok(cs.shades[ShadeIndex(|cs.shades|, x)])
  {
    ShadeIndexInDomain(|cs.shades|, x);
  }

  /** Percentile 0 (and anything below) is the lightest shade. */
  lemma GetValLightest(cs: ColorSet, x: real)
    requires |cs.shades| > 0 && x <= 0.0
    ensures GetVal(cs, x) == Ok(cs.shades[0])
  {
    ShadeIndexAtOrBelowZero(|cs.shades|, x);
  }

  /** Percentile 1000 is exactly the darkest shade. */
  lemma GetValDarkest(cs: ColorSet)
    requires |cs.shades| > 0
    ensures GetVal(cs, 1000.0) == Ok(cs.shades[|cs.shades| - 1])
  {
    var n := |cs.shades|;
    assert Scaled(n, 1000.0) == n as real - 1.0;
  }

  /** Percentile 500 is the middle shade, rounding toward the lighter one. */
  lemma GetValMiddle(cs: ColorSet)
    requires |cs.shades| > 0
    ensures GetVal(cs, 500.0) == Ok(cs.shades[(|cs.shades| - 1) / 2])
  {
    var n := |cs.shades|;
    var m := n - 1;
    var q, rem := m / 2, m % 2;
    assert m == 2 * q + rem;
    assert Scaled(n, 500.0) == q as real + rem as real / 2.0;
    assert ShadeIndex(n, 500.0) == q;
  }

  /** On a darker percentile `get_val` reads the same position or a later
      (darker) one than on a lighter percentile. */
  lemma GetValMonotone(cs: ColorSet, x1: real, x2: real)
    requires |cs.shades| > 0 && x1 <= x2
    requires GetVal(cs, x1).Ok? && GetVal(cs, x2).Ok?
    ensures ShadeIndex(|cs.shades|, x1) <= ShadeIndex(|cs.shades|, x2) < |cs.shades|
    ensures GetVal(cs, x1) == Ok(cs.shades[ShadeIndex(|cs.shades|, x1)])
    ensures GetVal(cs, x2) == Ok(cs.shades[ShadeIndex(|cs.shades|, x2)])
  {
    ShadeIndexMonotone(|cs.shades|, x1, x2);
  }

  /** `get_val` panics exactly when the ramp has at least two shades and the
      scaled position reaches `n`; the index it then reads is `n`. */
  lemma GetValPanicsIff(cs: ColorSet, x: real)
    ensures !GetVal(cs, x).Ok? <==> |cs.shades| >= 2 && Scaled(|cs.shades|, x) >= |cs.shades| as real
    ensures !GetVal(cs, x).Ok? ==> GetVal(cs, x) == IndexOutOfBounds(|cs.shades|, |cs.shades|)
  {
    var n := |cs.shades|;
    if n == 1 {
      assert Scaled(n, x) == 0.0;
    }
  }

  /** The same condition written on the percentile: with `n >= 2` shades,
      `get_val(x)` panics exactly when `x >= 1000 * n / (n - 1)`, so one
      past 1000 is never enough and such percentiles lie outside 0..1000. */
  lemma GetValPanicThreshold(cs: ColorSet, x: real)
    requires |cs.shades| >= 2
    ensures !GetVal(cs, x).Ok? <==> x >= 1000.0 * (|cs.shades| as real) / (|cs.shades| as real - 1.0)
    ensures 1000.0 * (|cs.shades| as real) / (|cs.shades| as real - 1.0) > 1000.0
  {
    var n := |cs.shades| as real;
    var k := n - 1.0;
    var q := n / k;
    var t := x / 1000.0;
    var v := Scaled(|cs.shades|, x);
    assert k * q == n;
    assert 1000.0 * n / k == 1000.0 * q;
    assert v == k * t;
    GetValPanicsIff(cs, x);
    assert !GetVal(cs, x).Ok? <==> v >= n;
    ScaledReachesTop(k, q, t, v, n);
    assert t >= q <==> x >= 1000.0 * q;
    assert q - 1.0 == 1.0 / k;
  }

  /** With `v = k * t` and `top = k * q` for a positive `k`, the scaled
      value reaches the top exactly when `t` reaches `q`. */
  lemma ScaledReachesTop(k: real, q: real, t: real, v: real, top: real)
    requires k > 0.0 && v == k * t && top == k * q
    ensures v >= top <==> t >= q
  {
    PositiveScaleOrder(k, q, t);
  }

  /** Multiplying by a positive factor preserves order both ways. */
  lemma PositiveScaleOrder(k: real, a: real, b: real)
    requires k > 0.0
    ensures a <= b <==> k * a <= k * b
  {
    if a <= b {
      assert k * b - k * a == k * (b - a);
    } else {
      assert k * a - k * b == k * (a - b);
    }
  }

  /** A concrete panic: a two-shade ramp read at percentile 2000. */
  lemma GetValPanicExample(a: Color, b: Color)
    ensures GetVal(ColorSet([a, b]), 2000.0) == IndexOutOfBounds(2, 2)
  {
    assert Scaled(2, 2000.0) == 2.0;
  }

  /** A single-shade ramp reads that shade at every percentile. */
  lemma FromColorConstant(c: Color, x: real)
    ensures GetVal(FromColor(c), x) == Ok(c)
  {
    assert Scaled(1, x) == 0.0;
  }

  /** The one-shade constructor is the vector constructor on `[c]`. */
  lemma FromColorIsFromVec(c: Color)
    ensures FromColor(c) == FromVec([c])
  {}

  /** The default ramp is white at every percentile and index. */
  lemma DefaultColorSetIsWhite(x: real, i: Usize)
    requires i < USIZE_MAX
    ensures GetVal(DefaultColorSet(), x) == Ok(WHITE)
    ensures GetIndex(DefaultColorSet(), i) == Ok(WHITE)
  {}

  // ---------------------------------------------------------------------
  // Properties of get_index

  /** `get_index` returns white for `i + 1 >= len` and `shades[i]` below. */
  lemma GetIndexCases(cs: ColorSet, i: Usize)
    requires i < USIZE_MAX
    ensures i + 1 >= |cs.shades| ==> GetIndex(cs, i) == Ok(WHITE)
    ensures i + 1 < |cs.shades| ==> GetIndex(cs, i) == Ok(cs.shades[i])
  {}

  /** The last shade's own index yields white, not the last shade. */
  lemma GetIndexHidesLast(cs: ColorSet)
    requires 0 < |cs.shades| <= USIZE_MAX
    ensures GetIndex(cs, |cs.shades| - 1) == Ok(WHITE)
  {}

  /** When the darkest shade is distinct from white and from every lighter
      shade, no index makes `get_index` return it. */
  lemma GetIndexNeverReturnsLast(cs: ColorSet, i: Usize)
    requires |cs.shades| > 0
    requires cs.shades[|cs.shades| - 1] != WHITE
    requires cs.shades[|cs.shades| - 1] !in cs.shades[..|cs.shades| - 1]
    ensures GetIndex(cs, i) != Ok(cs.shades[|cs.shades| - 1])
  {
    var n := |cs.shades|;
    if i < USIZE_MAX && i + 1 < n {
      assert cs.shades[i] == cs.shades[..n - 1][i];
    }
  }
}

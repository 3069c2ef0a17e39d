/**
 * Integer geometry shared by the two preview views: display rotation codes
 * and their degrees, Kotlin's truncating remainder, and the size field of a
 * packed 32-bit measure spec.
 */
module PreviewGeometry {

  // Surface.ROTATION_* codes.
  const ROTATION_0: int := 0
  const ROTATION_90: int := 1
  const ROTATION_180: int := 2
  const ROTATION_270: int := 3

  // View.MeasureSpec modes, as the signed 32-bit values Kotlin sees.
  const UNSPECIFIED: int := 0
  const EXACTLY: int := 0x4000_0000
  const AT_MOST: int := -0x8000_0000
  const SIZE_RANGE: int := 0x4000_0000

  predicate IsInt32(x: int) {
    -0x8000_0000 <= x < 0x8000_0000
  }

  /**
   * A display rotation code in degrees (surfaceOrientation and, with the same
   * table, deviceOrientation): the four codes are quarter turns, anything
   * else counts as no rotation.
   */
  function DisplayDegrees(displayRotation: int): (d: int)
    ensures d in {0, 90, 180, 270}
    ensures ROTATION_0 <= displayRotation <= ROTATION_270 ==> d == 90 * displayRotation
    ensures !(ROTATION_0 <= displayRotation <= ROTATION_270) ==> d == 0
  {
    if displayRotation == ROTATION_0 then 0
    else if displayRotation == ROTATION_90 then 90
    else if displayRotation == ROTATION_180 then 180
    else if displayRotation == ROTATION_270 then 270
    else 0
  }

  /** Kotlin's `a % b` for a positive divisor: truncating, so the sign follows a. */
  function KotlinRem(a: int, b: int): (r: int)
    requires b > 0
    ensures -b < r < b
    ensures a >= 0 ==> r >= 0
    ensures a <= 0 ==> r <= 0
  {
    if a >= 0 then a % b else -((-a) % b)
  }

  /** A multiple of b leaves no remainder. */
  lemma MultipleRem(b: int, k: int)
    requires b > 0
    ensures (b * k) % b == 0
  {
    var n := b * k;
    var q := n / b;
    var r := n % b;
    assert n == b * q + r;
    assert b * (k - q) == r;
    MulAwayFromZero(b, k - q);
  }

  /** A non-zero multiple of b is at least b away from zero. */
  lemma MulAwayFromZero(b: int, d: int)
    requires b > 0
    ensures d > 0 ==> b * d >= b
    ensures d < 0 ==> b * d <= -b
  {
    if d > 0 {
      assert b * d == b * (d - 1) + b;
    } else if d < 0 {
      assert b * d == -(b * (-d - 1)) - b;
    }
  }

  /** The truncating remainder differs from a by a multiple of b. */
  lemma KotlinRemCongruent(a: int, b: int)
    requires b > 0
    ensures (a - KotlinRem(a, b)) % b == 0
    ensures KotlinRem(a, b) == 0 <==> a % b == 0
  {
    if a >= 0 {
      MultipleRem(b, a / b);
      assert a - a % b == b * (a / b);
    } else {
      var k := (-a) / b;
      assert -a == b * k + (-a) % b;
      assert a - KotlinRem(a, b) == b * (-k);
      MultipleRem(b, -k);
      if (-a) % b == 0 {
        assert a == b * (-k);
      } else {
        assert a % b != 0 by {
          if a % b == 0 {
            assert a == b * (a / b);
            assert -a == b * (-(a / b));
            MultipleRem(b, -(a / b));
          }
        }
      }
    }
  }

  /** Divisibility by 180 ignores the sign. */
  lemma KotlinRemNegate(a: int)
    ensures KotlinRem(-a, 180) == 0 <==> KotlinRem(a, 180) == 0
  {
    KotlinRemCongruent(a, 180);
    KotlinRemCongruent(-a, 180);
  }

  /** makeMeasureSpec for a size that fits the 30-bit size field. */
  function MakeMeasureSpec(size: int, mode: int): (spec: int)
    requires 0 <= size < SIZE_RANGE && mode in {UNSPECIFIED, EXACTLY, AT_MOST}
    ensures IsInt32(spec)
  {
    size + mode
  }

  /** MeasureSpec.getSize: the low 30 bits of the two's-complement spec. */
  function MeasureSpecSize(spec: int): (size: int)
    requires IsInt32(spec)
    ensures 0 <= size < SIZE_RANGE
    ensures (spec - size) % SIZE_RANGE == 0
  {
    spec % SIZE_RANGE
  }

  /** getSize recovers the size packed by makeMeasureSpec, whatever the mode. */
  lemma MeasureSpecRoundTrip(size: int, mode: int)
    requires 0 <= size < SIZE_RANGE && mode in {UNSPECIFIED, EXACTLY, AT_MOST}
    ensures MeasureSpecSize(MakeMeasureSpec(size, mode)) == size
  {
    var spec := MakeMeasureSpec(size, mode);
    var q := if mode == UNSPECIFIED then 0 else if mode == EXACTLY then 1 else -2;
    assert spec == SIZE_RANGE * q + size;
  }
}

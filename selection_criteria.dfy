/**
 * Camera selection criteria: the facing of the lens, a band of focal lengths
 * and a target output size, with the three tests the camera search applies.
 */
module SelectionCriteria {
  import opened Wrappers

  // Values of CameraCharacteristics.LENS_FACING_*.
  const LENS_FACING_FRONT: int := 0
  const LENS_FACING_BACK: int := 1
  const LENS_FACING_EXTERNAL: int := 2

  // The band limits are single-precision constants; these are their exact values.
  const SMALL_MIN: real := 0.0
  const SMALL_MAX: real := 8371831.0 / 16777216.0  // 0.499f
  const MEDIUM_MIN: real := 0.5
  const MEDIUM_MAX: real := 8346665.0 / 4194304.0  // 1.990f
  const LARGE_MIN: real := 2.0
  const LARGE_MAX: real := 100.0

  /** The direction a camera faces, each bound to one lens-facing constant. */
  datatype Facing = Front | Back | External {

    function LensId(): int {
      match this
      case Front => LENS_FACING_FRONT
      case Back => LENS_FACING_BACK
      case External => LENS_FACING_EXTERNAL
    }

    /** The lens facing read from a camera (absent when the camera does not report one). */
    predicate Matches(lens: Option<int>) {
      lens == Some(LensId())
    }
  }

  /** A closed band [Min(), Max()] of focal lengths. */
  datatype FocalLength = Large | Medium | Small {

    function Min(): real {
      match this
      case Large => LARGE_MIN
      case Medium => MEDIUM_MIN
      case Small => SMALL_MIN
    }

    function Max(): real {
      match this
      case Large => LARGE_MAX
      case Medium => MEDIUM_MAX
      case Small => SMALL_MAX
    }

    predicate Contains(x: real) {
      Min() <= x <= Max()
    }

    /** True when some listed focal length lies in the band; an absent list never matches. */
    predicate Matches(focalLengths: Option<seq<real>>) {
      focalLengths.Some? && AnyInBand(focalLengths.value, Min(), Max())
    }
  }

  /** `any` over a list of focal lengths, one element at a time. */
  function AnyInBand(xs: seq<real>, lo: real, hi: real): (r: bool)
    ensures r <==> exists i :: 0 <= i < |xs| && lo <= xs[i] <= hi
  {
    if xs == [] then false
    else if lo <= xs[0] <= hi then true
    else
      var rest := AnyInBand(xs[1..], lo, hi);
      assert forall i :: 1 <= i < |xs| ==> xs[i] == xs[1..][i - 1];
      rest
  }

  datatype Size = Size(width: int, height: int)

  function Max(a: int, b: int): int { if a >= b then a else b }
  function Min(a: int, b: int): int { if a <= b then a else b }

  /** The target size of a search, and the score a candidate size gets against it. */
  datatype SizeLimit = SizeLimit(size: Size) {

    /** The area of the bounding box of both sizes minus the area of their overlap. */
    function Error(other: Size): int {
      Max(size.height, other.height) * Max(size.width, other.width)
        - Min(size.height, other.height) * Min(size.width, other.width)
    }
  }

  datatype Criteria = Criteria(facing: Facing, focalLength: FocalLength, size: SizeLimit)

  /** The criteria built with no arguments. */
  function DefaultCriteria(): (c: Criteria)
    ensures c.facing.Matches(Some(LENS_FACING_BACK))
    ensures c.focalLength.Contains(1.0) && !c.focalLength.Contains(0.499) && !c.focalLength.Contains(2.0)
    ensures c.size.size.width == 1024 && c.size.size.height == 768
  {
    Criteria(Back, Medium, SizeLimit(Size(1024, 768)))
  }

  /** A lens-facing value matches at most one facing, and absence matches none. */
  lemma FacingMatchesOne(f: Facing, g: Facing, lens: Option<int>)
    ensures !f.Matches(None)
    ensures f.Matches(lens) && g.Matches(lens) ==> f == g
  {
  }

  /** The three bands are ordered and share no focal length. */
  lemma BandsDisjoint(f: FocalLength, g: FocalLength, x: real)
    ensures Small.Max() < Medium.Min() && Medium.Max() < Large.Min()
    ensures f.Contains(x) && g.Contains(x) ==> f == g
  {
  }

  /** An empty list of focal lengths matches no band. */
  lemma EmptyFocalLengthsNeverMatch(f: FocalLength)
    ensures !f.Matches(Some([])) && !f.Matches(None)
  {
  }

  /** Swapping target and candidate does not change the score. */
  lemma ErrorSymmetric(a: Size, b: Size)
    ensures SizeLimit(a).Error(b) == SizeLimit(b).Error(a)
  {
  }

  lemma MulMonotone(a: int, b: int, c: int, d: int)
    requires 0 <= c <= a && 0 <= d <= b
    ensures c * d <= a * b
  {
    assert c * d <= a * d;
    assert a * d <= a * b;
  }

  lemma MulStrict(a: int, b: int, c: int, d: int)
    requires 0 < c <= a && 0 < d <= b && (c < a || d < b)
    ensures c * d < a * b
  {
    if c < a {
      assert c * d < a * d;
      assert a * d <= a * b;
    } else {
      assert c * d < c * b;
    }
  }

  /** For sizes with non-negative dimensions the score is never negative, and is zero for equal sizes. */
  lemma ErrorNonNegative(a: Size, b: Size)
    requires a.width >= 0 && a.height >= 0 && b.width >= 0 && b.height >= 0
    ensures SizeLimit(a).Error(b) >= 0
    ensures a == b ==> SizeLimit(a).Error(b) == 0
  {
    MulMonotone(Max(a.height, b.height), Max(a.width, b.width), Min(a.height, b.height), Min(a.width, b.width));
  }

  /** For sizes with positive dimensions the score is zero exactly when the sizes are equal. */
  lemma ErrorZeroIffEqual(a: Size, b: Size)
    requires a.width > 0 && a.height > 0 && b.width > 0 && b.height > 0
    ensures SizeLimit(a).Error(b) == 0 <==> a == b
  {
    if a != b {
      MulStrict(Max(a.height, b.height), Max(a.width, b.width), Min(a.height, b.height), Min(a.width, b.width));
    }
  }

  /**
   * The score is computed in 32-bit Int arithmetic. It cannot overflow when
   * every dimension is at most 46340, the largest whose square fits.
   */
  lemma ErrorFitsInt32(a: Size, b: Size)
    requires 0 <= a.width <= 46340 && 0 <= a.height <= 46340
    requires 0 <= b.width <= 46340 && 0 <= b.height <= 46340
    ensures 0 <= SizeLimit(a).Error(b) < 0x8000_0000
  {
    ErrorNonNegative(a, b);
    MulMonotone(46340, 46340, Max(a.height, b.height), Max(a.width, b.width));
    MulMonotone(Max(a.height, b.height), Max(a.width, b.width), Min(a.height, b.height), Min(a.width, b.width));
  }
}

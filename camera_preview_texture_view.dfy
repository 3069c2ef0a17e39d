/**
 * The preview view with a fixed-size buffer: the unnormalised rotation, the
 * width/height swap it decides, and the scale branch that undoes the
 * stretching of the output to the measured area.
 */
module CameraPreviewTextureViews {
  import opened PreviewGeometry
  import opened SelectionCriteria

  /** Sensor orientation minus device orientation, not normalised. */
  function Rotation(cameraOrientation: int, displayRotation: int): (r: int)
    ensures cameraOrientation in {0, 90, 180, 270} ==> -270 <= r <= 270
  {
    cameraOrientation - DisplayDegrees(displayRotation)
  }

  /** The rotation may be negative: an upright sensor on a display turned a quarter. */
  lemma RotationMayBeNegative()
    ensures Rotation(0, ROTATION_90) == -90
  {
  }

  /** The camera output size as seen after rotation: swapped unless the rotation is a multiple of a half turn. */
  function OrientedOutputSize(sizeInPixels: Size, rotation: int): (r: Size)
    ensures multiset{r.width, r.height} == multiset{sizeInPixels.width, sizeInPixels.height}
    ensures KotlinRem(rotation, 180) == 0 ==> r == sizeInPixels
    ensures KotlinRem(rotation, 180) != 0 ==> r == Size(sizeInPixels.height, sizeInPixels.width)
  {
    if KotlinRem(rotation, 180) == 0 then sizeInPixels
    else Size(sizeInPixels.height, sizeInPixels.width)
  }

  /** For quarter-turn sensors, the output is swapped exactly when sensor and device are a quarter turn apart. */
  lemma SwapIffQuarterApart(cameraOrientation: int, displayRotation: int)
    ensures KotlinRem(Rotation(cameraOrientation, displayRotation), 180) != 0
            <==> (cameraOrientation - DisplayDegrees(displayRotation)) % 180 != 0
  {
    KotlinRemCongruent(Rotation(cameraOrientation, displayRotation), 180);
  }

  /** The swap decision does not depend on the sign of the rotation. */
  lemma SwapIgnoresSign(sizeInPixels: Size, rotation: int)
    ensures OrientedOutputSize(sizeInPixels, -rotation) == OrientedOutputSize(sizeInPixels, rotation)
  {
    KotlinRemNegate(rotation);
  }

  /** Output aspect over measured aspect. */
  function ScaleAspect(output: Size, measuredWidth: int, measuredHeight: int): (a: real)
    requires output.width > 0 && output.height > 0 && measuredWidth > 0 && measuredHeight > 0
    ensures a > 0.0
  {
    (output.width as real / output.height as real) / (measuredWidth as real / measuredHeight as real)
  }

  /**
   * Over exact quotients the branch is decided by integers: the output is
   * narrower than the measured area. (The source's Float quotients can round
   * a near-tie to 1 and take the other branch; that is not modelled.)
   */
  lemma ScaleAspectBelowOne(output: Size, measuredWidth: int, measuredHeight: int)
    requires output.width > 0 && output.height > 0 && measuredWidth > 0 && measuredHeight > 0
    ensures ScaleAspect(output, measuredWidth, measuredHeight) < 1.0
            <==> output.width * measuredHeight < output.height * measuredWidth
  {
    var w, h := output.width as real, output.height as real;
    var mw, mh := measuredWidth as real, measuredHeight as real;
    var a := ScaleAspect(output, measuredWidth, measuredHeight);
    assert a * (mw / mh) == w / h;
    assert a * mw == (w / h) * mh;
    assert a * (h * mw) == w * mh;
    QuotientBelowOne(a, h * mw, w * mh);
    assert (output.width * measuredHeight) as real == w * mh;
    assert (output.height * measuredWidth) as real == h * mw;
  }

  /** With a positive denominator, a = x / d is below one exactly when x is below d. */
  lemma QuotientBelowOne(a: real, d: real, x: real)
    requires d > 0.0 && a * d == x
    ensures a < 1.0 <==> x < d
  {
    if a < 1.0 {
      assert x == a * d < d;
    } else {
      assert x == a * d >= d;
    }
  }

  class CameraPreviewTextureView {
    /** The buffer size and sensor orientation, which the description does not carry. */
    const sizeInPixels: Size
    const cameraOrientation: int
    /** The holder's fixed buffer size. */
    var fixedWidth: int
    var fixedHeight: int
    var scaleX: real
    var scaleY: real

    constructor (sizeInPixels: Size, cameraOrientation: int)
      ensures this.sizeInPixels == sizeInPixels && this.cameraOrientation == cameraOrientation
      ensures fixedWidth == sizeInPixels.width && fixedHeight == sizeInPixels.height
      ensures scaleX == 1.0 && scaleY == 1.0
    {
      this.sizeInPixels := sizeInPixels;
      this.cameraOrientation := cameraOrientation;
      fixedWidth, fixedHeight := sizeInPixels.width, sizeInPixels.height;
      scaleX, scaleY := 1.0, 1.0;
    }

    /**
     * onMeasure, after the platform's own measure pass produced the measured
     * size: one scale is exactly 1, the other shrinks, and their ratio is the
     * output aspect over the measured aspect.
     */
    method OnMeasure(displayRotation: int, measuredWidth: int, measuredHeight: int)
      requires sizeInPixels.width > 0 && sizeInPixels.height > 0 && measuredWidth > 0 && measuredHeight > 0
      modifies this`scaleX, this`scaleY
      ensures var output := OrientedOutputSize(sizeInPixels, Rotation(cameraOrientation, displayRotation));
        var aspect := ScaleAspect(output, measuredWidth, measuredHeight);
        && (aspect < 1.0 ==> scaleX == aspect && scaleY == 1.0)
        && (aspect >= 1.0 ==> scaleX == 1.0 && scaleY == 1.0 / aspect)
        && scaleX / scaleY == aspect
      ensures scaleX == 1.0 || scaleY == 1.0
      ensures 0.0 < scaleX <= 1.0 && 0.0 < scaleY <= 1.0
    {
      var rotation := Rotation(cameraOrientation, displayRotation);
      var cameraOutputWidth: int;
      var cameraOutputHeight: int;
      if KotlinRem(rotation, 180) == 0 {
        cameraOutputWidth := sizeInPixels.width;
        cameraOutputHeight := sizeInPixels.height;
      } else {
        cameraOutputWidth := sizeInPixels.height;
        cameraOutputHeight := sizeInPixels.width;
      }
      var cameraOutputAspect := cameraOutputWidth as real / cameraOutputHeight as real;
      var measuredAspect := measuredWidth as real / measuredHeight as real;
      var scaleAspect := cameraOutputAspect / measuredAspect;
      assert scaleAspect == ScaleAspect(Size(cameraOutputWidth, cameraOutputHeight), measuredWidth, measuredHeight);
      if scaleAspect < 1.0 {
        scaleX := scaleAspect;
        scaleY := 1.0;
      } else {
        scaleX := 1.0;
        scaleY := 1.0 / scaleAspect;
      }
    }
  }
}

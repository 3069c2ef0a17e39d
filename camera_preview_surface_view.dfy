/**
 * The preview view that scales its content against the camera output: the
 * relative rotation between sensor and display, and the branch and guard
 * structure of its measure pass. The floating-point scale factors are
 * represented by the output dimension each axis is divided by.
 */
module CameraPreviewSurfaceViews {
  import opened Wrappers
  import opened PreviewGeometry
  import opened SelectionCriteria
  import opened CameraModel

  /** The orientation sign; the lens-facing test that would choose -1 is disabled. */
  const SIGN: int := 1

  /** computeRelativeRotation: sensor orientation minus display orientation, plus a turn, modulo a turn. */
  function ComputeRelativeRotation(cameraOrientation: int, displayRotation: int): (r: int)
    ensures cameraOrientation >= 0 ==> 0 <= r < 360
  {
    KotlinRem(cameraOrientation - DisplayDegrees(displayRotation) * SIGN + 360, 360)
  }

  /** The relative rotation turns the display's orientation into the sensor's. */
  lemma RelativeRotationCongruent(cameraOrientation: int, displayRotation: int)
    ensures (ComputeRelativeRotation(cameraOrientation, displayRotation)
             - (cameraOrientation - DisplayDegrees(displayRotation))) % 360 == 0
  {
    var a := cameraOrientation - DisplayDegrees(displayRotation) + 360;
    KotlinRemCongruent(a, 360);
  }

  /** For a sensor mounted at a quarter turn, the relative rotation is a quarter turn too. */
  lemma RelativeRotationQuarterTurns(cameraOrientation: int, displayRotation: int)
    requires cameraOrientation in {0, 90, 180, 270}
    ensures ComputeRelativeRotation(cameraOrientation, displayRotation) in {0, 90, 180, 270}
  {
    RelativeRotationCongruent(cameraOrientation, displayRotation);
  }

  /** The output dimensions the x and y scales were computed against. */
  datatype ScaleBasis = ScaleBasis(x: int, y: int)

  class CameraPreviewSurfaceView {
    const cameraDescription: SelectedCameraDescription
    /** The sensor orientation, which the description does not carry. */
    const cameraOrientation: int
    /** Stands for scaleX/scaleY: None until a measure pass has set them. */
    var scaleBasis: Option<ScaleBasis>
    var measuredWidth: int
    var measuredHeight: int

    constructor (cameraDescription: SelectedCameraDescription, cameraOrientation: int)
      ensures this.cameraDescription == cameraDescription && this.cameraOrientation == cameraOrientation
      ensures scaleBasis == None && measuredWidth == 0 && measuredHeight == 0
    {
      this.cameraDescription := cameraDescription;
      this.cameraOrientation := cameraOrientation;
      scaleBasis := None;
      measuredWidth := 0;
      measuredHeight := 0;
    }

    /**
     * onMeasure: scales are set only for a non-degenerate camera output, x
     * against the output width and y against its height unless the relative
     * rotation is a quarter turn, which swaps them; the measured size is the
     * display size either way.
     */
    method OnMeasure(widthMeasureSpec: int, heightMeasureSpec: int, displayRotation: int)
      requires IsInt32(widthMeasureSpec) && IsInt32(heightMeasureSpec)
      modifies this`scaleBasis, this`measuredWidth, this`measuredHeight
      ensures measuredWidth == MeasureSpecSize(widthMeasureSpec)
      ensures measuredHeight == MeasureSpecSize(heightMeasureSpec)
      ensures var size := cameraDescription.size;
        !(size.width > 0 && size.height > 0) ==> scaleBasis == old(scaleBasis)
      ensures var size := cameraDescription.size;
        var upright := KotlinRem(ComputeRelativeRotation(cameraOrientation, displayRotation), 180) == 0;
        size.width > 0 && size.height > 0 ==>
          scaleBasis == Some(if upright then ScaleBasis(size.width, size.height) else ScaleBasis(size.height, size.width))
      ensures scaleBasis != old(scaleBasis) ==>
        scaleBasis.Some? && scaleBasis.value.x > 0 && scaleBasis.value.y > 0
        && multiset{scaleBasis.value.x, scaleBasis.value.y} == multiset{cameraDescription.size.width, cameraDescription.size.height}
    {
      var displayWidth := MeasureSpecSize(widthMeasureSpec);
      var displayHeight := MeasureSpecSize(heightMeasureSpec);
      var cameraOutputWidth := cameraDescription.size.width;
      var cameraOutputHeight := cameraDescription.size.height;
      var relativeRotation := ComputeRelativeRotation(cameraOrientation, displayRotation);
      if cameraOutputWidth > 0 && cameraOutputHeight > 0 {
        var scaleX := if KotlinRem(relativeRotation, 180) == 0 then cameraOutputWidth else cameraOutputHeight;
        var scaleY := if KotlinRem(relativeRotation, 180) == 0 then cameraOutputHeight else cameraOutputWidth;
        scaleBasis := Some(ScaleBasis(scaleX, scaleY));
      }
      measuredWidth, measuredHeight := displayWidth, displayHeight;
    }
  }
}

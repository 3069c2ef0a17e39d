/**
 * The camera exception family: every failure the camera service reports,
 * with the message each one carries.
 */
module CameraExceptions {
  import opened Wrappers
  import SelectionCriteria

  // Values of CameraDevice.StateCallback.ERROR_*.
  const ERROR_CAMERA_IN_USE: int := 1
  const ERROR_MAX_CAMERAS_IN_USE: int := 2
  const ERROR_CAMERA_DISABLED: int := 3
  const ERROR_CAMERA_DEVICE: int := 4
  const ERROR_CAMERA_SERVICE: int := 5

  const UNKNOWN_ERROR_PREFIX: string := "Unknown camera error: "
  const SECURITY_PREFIX: string := "Security exception while opening camera: "
  const DISCONNECTED_MESSAGE: string := "Camera immediately disconnected"
  const CONFIGURE_PREFIX: string := "Cannot configure camera capture session for device "

  /**
   * One constructor per leaf exception class. The first four are the classes
   * of the camera package's exception file; the last two are thrown by the
   * camera service and are camera exceptions too.
   */
  datatype CameraException =
    | CannotOpenCameraErrorException(code: int)
    | CannotOpenCameraSecurityException(cause: SecurityCause)
    | CannotOpenCameraDisconnectedException
    | CannotConfigureCameraCaptureSession(deviceId: string)
    | NoMatchingCameraException(criteria: SelectionCriteria.Criteria)
    | NoCameraSelectedException

  /** The SecurityException the platform threw, kept as the cause. */
  datatype SecurityCause = SecurityCause(message: Option<string>)

  /** Instances of the open class CannotOpenCameraException. */
  predicate IsCannotOpenCamera(e: CameraException) {
    e.CannotOpenCameraErrorException? || e.CannotOpenCameraSecurityException? || e.CannotOpenCameraDisconnectedException?
  }

  function DigitChar(d: nat): (c: char)
    requires d < 10
    ensures '0' <= c <= '9'
  {
    "0123456789"[d]
  }

  /** Decimal digits of a natural number, most significant first. */
  function NatToString(n: nat): (s: string)
    ensures |s| >= 1
    ensures forall i :: 0 <= i < |s| ==> '0' <= s[i] <= '9'
    decreases n
  {
    if n < 10 then [DigitChar(n)] else NatToString(n / 10) + [DigitChar(n % 10)]
  }

  /** An Int rendered in a string template: decimal, with a leading minus when negative. */
  function IntToString(n: int): (s: string)
    ensures |s| >= 1
    ensures (s[0] == '-') <==> n < 0
  {
    if n < 0 then "-" + NatToString(-n) else NatToString(n)
  }

  /** The value of a string of decimal digits, most significant first. */
  function DigitsValue(s: string): nat
    requires forall i :: 0 <= i < |s| ==> '0' <= s[i] <= '9'
  {
    if |s| == 0 then 0 else DigitsValue(s[..|s| - 1]) * 10 + (s[|s| - 1] as int - '0' as int)
  }

  /** Reads back a rendered Int. */
  function ParseInt(s: string): int
    requires |s| >= 1
    requires forall i :: 0 < i < |s| ==> '0' <= s[i] <= '9'
    requires s[0] == '-' || '0' <= s[0] <= '9'
  {
    if s[0] == '-' then -(DigitsValue(s[1..]) as int) else DigitsValue(s)
  }

  lemma {:induction false} NatToStringRoundTrip(n: nat)
    ensures DigitsValue(NatToString(n)) == n
    decreases n
  {
    var s := NatToString(n);
    if n >= 10 {
      NatToStringRoundTrip(n / 10);
      assert s[..|s| - 1] == NatToString(n / 10);
    }
  }

  /** Rendering an Int loses nothing: it reads back as the same number. */
  lemma IntToStringRoundTrip(n: int)
    ensures ParseInt(IntToString(n)) == n
  {
    if n < 0 {
      NatToStringRoundTrip(-n);
      ParseNegative(NatToString(-n));
    } else {
      NatToStringRoundTrip(n);
    }
  }

  lemma ParseNegative(t: string)
    requires forall i :: 0 <= i < |t| ==> '0' <= t[i] <= '9'
    ensures ParseInt("-" + t) == -(DigitsValue(t) as int)
  {
    assert ("-" + t)[1..] == t;
  }

  predicate IsKnownErrorCode(code: int) {
    ERROR_CAMERA_IN_USE <= code <= ERROR_CAMERA_SERVICE
  }

  /** The message of the exception raised for a device-open error code. */
  function ErrorCodeMessage(code: int): (m: string)
    ensures code == ERROR_CAMERA_IN_USE ==> m == "ERROR_CAMERA_IN_USE"
    ensures code == ERROR_MAX_CAMERAS_IN_USE ==> m == "ERROR_MAX_CAMERAS_IN_USE"
    ensures code == ERROR_CAMERA_DISABLED ==> m == "ERROR_CAMERA_DISABLED"
    ensures code == ERROR_CAMERA_DEVICE ==> m == "ERROR_CAMERA_DEVICE"
    ensures code == ERROR_CAMERA_SERVICE ==> m == "ERROR_CAMERA_SERVICE"
    ensures !IsKnownErrorCode(code) ==> m == UNKNOWN_ERROR_PREFIX + IntToString(code)
  {
    if code == ERROR_CAMERA_IN_USE then "ERROR_CAMERA_IN_USE"
    else if code == ERROR_MAX_CAMERAS_IN_USE then "ERROR_MAX_CAMERAS_IN_USE"
    else if code == ERROR_CAMERA_DISABLED then "ERROR_CAMERA_DISABLED"
    else if code == ERROR_CAMERA_DEVICE then "ERROR_CAMERA_DEVICE"
    else if code == ERROR_CAMERA_SERVICE then "ERROR_CAMERA_SERVICE"
    else UNKNOWN_ERROR_PREFIX + IntToString(code)
  }

  /** A nullable message inside a string template prints as "null" when absent. */
  function Interpolate(s: Option<string>): string {
    if s.Some? then s.value else "null"
  }

  /** The message of each exception of the camera package's exception file. */
  function Message(e: CameraException): (m: Option<string>)
    requires !e.NoMatchingCameraException? && !e.NoCameraSelectedException?
    ensures m.Some?
    ensures e.CannotOpenCameraErrorException? ==> m.value == ErrorCodeMessage(e.code)
    ensures e.CannotOpenCameraDisconnectedException? ==> m.value == DISCONNECTED_MESSAGE
    ensures e.CannotOpenCameraSecurityException? ==> m.value == SECURITY_PREFIX + Interpolate(e.cause.message)
    ensures e.CannotConfigureCameraCaptureSession? ==> m.value == CONFIGURE_PREFIX + e.deviceId
  {
    match e
    case CannotOpenCameraErrorException(code) => Some(ErrorCodeMessage(code))
    case CannotOpenCameraSecurityException(cause) => Some(SECURITY_PREFIX + Interpolate(cause.message))
    case CannotOpenCameraDisconnectedException => Some(DISCONNECTED_MESSAGE)
    case CannotConfigureCameraCaptureSession(deviceId) => Some(CONFIGURE_PREFIX + deviceId)
  }

  /** Wraps a SecurityException thrown while opening the camera, keeping it as the cause. */
  function FromSecurityException(cause: SecurityCause): (e: CameraException)
    ensures IsCannotOpenCamera(e) && e.CannotOpenCameraSecurityException? && e.cause == cause
    ensures Message(e).value == SECURITY_PREFIX + Interpolate(cause.message)
  {
    CannotOpenCameraSecurityException(cause)
  }

  /**
   * The message of an error-code exception tells whether the code was one of
   * the five known ones: a known code never yields the "unknown" prefix.
   */
  lemma {:induction false} KnownCodeRecoverable(code: int)
    ensures IsKnownErrorCode(code) <==> !(|UNKNOWN_ERROR_PREFIX| <= |ErrorCodeMessage(code)| && ErrorCodeMessage(code)[..|UNKNOWN_ERROR_PREFIX|] == UNKNOWN_ERROR_PREFIX)
  {
    var m := ErrorCodeMessage(code);
    if IsKnownErrorCode(code) {
      assert m[0] == 'E';
      assert UNKNOWN_ERROR_PREFIX[0] == 'U';
    } else {
      assert m[..|UNKNOWN_ERROR_PREFIX|] == UNKNOWN_ERROR_PREFIX;
    }
  }

  /** An unknown code can be read back from its message. */
  lemma UnknownCodeRecoverable(code: int)
    requires !IsKnownErrorCode(code)
    ensures var m := ErrorCodeMessage(code);
      && |UNKNOWN_ERROR_PREFIX| < |m|
      && m[..|UNKNOWN_ERROR_PREFIX|] == UNKNOWN_ERROR_PREFIX
      && ParseInt(m[|UNKNOWN_ERROR_PREFIX|..]) == code
  {
    var m := ErrorCodeMessage(code);
    assert m[|UNKNOWN_ERROR_PREFIX|..] == IntToString(code);
    IntToStringRoundTrip(code);
  }

  /** Distinct known codes give distinct messages. */
  lemma KnownCodesDistinct(a: int, b: int)
    requires IsKnownErrorCode(a) && IsKnownErrorCode(b) && a != b
    ensures ErrorCodeMessage(a) != ErrorCodeMessage(b)
  {
  }

  /** Every open failure is a camera exception that can not open the camera; a configure failure is not one. */
  lemma Hierarchy(code: int, cause: SecurityCause, id: string)
    ensures IsCannotOpenCamera(CannotOpenCameraErrorException(code))
    ensures IsCannotOpenCamera(FromSecurityException(cause))
    ensures IsCannotOpenCamera(CannotOpenCameraDisconnectedException)
    ensures !IsCannotOpenCamera(CannotConfigureCameraCaptureSession(id))
  {
  }
}

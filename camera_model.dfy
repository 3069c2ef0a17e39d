/**
 * Value-level model of the camera service: the camera records the camera
 * manager reports, the search for a camera, the service's state hierarchy,
 * and one step function per service operation. The class in module
 * CameraService runs these steps in place; the lemmas here state what the
 * steps promise.
 */
module CameraModel {
  import opened Wrappers
  import opened SelectionCriteria
  import opened CameraExceptions

  // CameraMetadata.REQUEST_AVAILABLE_CAPABILITIES_BACKWARD_COMPATIBLE
  const BACKWARD_COMPATIBLE: int := 0
  // CameraMetadata.SCALER_AVAILABLE_STREAM_USE_CASES_VIDEO_CALL
  const STREAM_USE_CASE_VIDEO_CALL: int := 5

  /** What the camera manager reports about one camera; absent keys are None. */
  datatype CameraCharacteristics = CameraCharacteristics(
    id: string,
    capabilities: Option<seq<int>>,
    lensFacing: Option<int>,
    focalLengths: Option<seq<real>>,
    outputSizes: Option<seq<Size>>)

  /** The activity the service is bound to, reduced to the cameras its camera manager lists, in order. */
  datatype Activity = Activity(cameras: seq<CameraCharacteristics>)

  datatype SelectedCameraDescription = SelectedCameraDescription(cameraId: string, size: Size)

  /** Opaque platform handles, told apart by a serial number. */
  datatype Surface = Surface(serial: nat)
  datatype Device = Device(serial: nat, id: string)
  datatype CaptureSession = CaptureSession(serial: nat)

  datatype OutputConfiguration = OutputConfiguration(surface: Surface, streamUseCase: int)

  /**
   * The service's inner state. The source's classes nest: a camera in session
   * is also a camera in standby, and both are "no camera selected" subclasses.
   */
  datatype InnerState =
    | NoCameraSelected
    | CameraStandby(criteria: Criteria, description: SelectedCameraDescription)
    | CameraInSession(criteria: Criteria, description: SelectedCameraDescription,
                      device: Device, captureSession: CaptureSession)
  {
    /** `is CameraStandby`, which a camera in session also satisfies. */
    predicate IsStandby() { !NoCameraSelected? }
  }

  /** What the service does to the platform, in order. */
  datatype Event =
    | CloseSession(session: CaptureSession)
    | CloseDevice(device: Device)
    | OpenCamera(cameraId: string)
    | CreateSession(device: Device, outputs: seq<OutputConfiguration>)

  /** Failures the service's operations surface: camera exceptions, or the cast of a missing activity. */
  datatype Fault = Camera(exception: CameraException) | MissingActivity

  /** How the platform answers an open request (the callback that fires, or the exception thrown). */
  datatype OpenOutcome =
    | Opened(device: nat)
    | Disconnected(device: nat)
    | OpenError(device: nat, code: int)
    | SecurityDenied(cause: SecurityCause)

  /** How the platform answers a capture-session request. */
  datatype ConfigureOutcome = Configured(session: nat) | ConfigureFailed

  /** The whole state of one service: its fields, the lock's hold count and the platform event log. */
  datatype Machine = Machine(
    state: InnerState,
    targets: seq<Surface>,
    activity: Option<Activity>,
    holdCount: nat,
    events: seq<Event>)

  /** What an operation returns, and the machine after it. */
  datatype Step<+T> = Step(result: T, after: Machine)

  // ---------------------------------------------------------------- search

  predicate BackwardCompatible(c: CameraCharacteristics) {
    c.capabilities.Some? && BACKWARD_COMPATIBLE in c.capabilities.value
  }

  /** A camera the search accepts: compatible, facing and focal length match, and some output size. */
  predicate Qualifies(c: CameraCharacteristics, criteria: Criteria) {
    && BackwardCompatible(c)
    && criteria.facing.Matches(c.lensFacing)
    && criteria.focalLength.Matches(c.focalLengths)
    && c.outputSizes.Some? && |c.outputSizes.value| > 0
  }

  /** Index i is the first qualifying camera of the list. */
  ghost predicate FirstQualifying(cams: seq<CameraCharacteristics>, criteria: Criteria, i: int) {
    && 0 <= i < |cams|
    && Qualifies(cams[i], criteria)
    && forall j :: 0 <= j < i ==> !Qualifies(cams[j], criteria)
  }

  /**
   * minByOrNull over the output sizes: the index of the FIRST size with the
   * least score (a later size replaces the current best only when strictly better).
   */
  function MinErrorIndex(sizes: seq<Size>, target: SizeLimit): (k: nat)
    requires |sizes| > 0
    ensures k < |sizes|
    ensures forall j :: 0 <= j < |sizes| ==> target.Error(sizes[k]) <= target.Error(sizes[j])
    ensures forall j :: 0 <= j < k ==> target.Error(sizes[j]) > target.Error(sizes[k])
  {
    if |sizes| == 1 then 0
    else
      var k := MinErrorIndex(sizes[..|sizes| - 1], target);
      assert forall j :: 0 <= j < |sizes| - 1 ==> sizes[..|sizes| - 1][j] == sizes[j];
      if target.Error(sizes[|sizes| - 1]) < target.Error(sizes[k]) then |sizes| - 1 else k
  }

  /** The description the search builds for an accepted camera. */
  function Describe(c: CameraCharacteristics, criteria: Criteria): SelectedCameraDescription
    requires Qualifies(c, criteria)
  {
    SelectedCameraDescription(c.id, c.outputSizes.value[MinErrorIndex(c.outputSizes.value, criteria.size)])
  }

  /** The camera search: the first accepted camera in list order, or NoMatchingCameraException carrying the criteria. */
  function FindCamera(cams: seq<CameraCharacteristics>, criteria: Criteria): (r: Result<SelectedCameraDescription, CameraException>)
    ensures r.Failure? <==> forall i :: 0 <= i < |cams| ==> !Qualifies(cams[i], criteria)
    ensures r.Failure? ==> r.error == NoMatchingCameraException(criteria)
    ensures r.Success? ==> exists i :: FirstQualifying(cams, criteria, i) && r.value == Describe(cams[i], criteria)
  {
    if cams == [] then Failure(NoMatchingCameraException(criteria))
    else if Qualifies(cams[0], criteria) then
      assert FirstQualifying(cams, criteria, 0);
      Success(Describe(cams[0], criteria))
    else
      var r := FindCamera(cams[1..], criteria);
      assert forall i :: 1 <= i < |cams| ==> cams[i] == cams[1..][i - 1];
      assert forall i :: FirstQualifying(cams[1..], criteria, i) ==> FirstQualifying(cams, criteria, i + 1);
      r
  }

  /** Skipping a prefix of rejected cameras does not change the search's answer. */
  lemma {:induction false} FindCameraSkips(cams: seq<CameraCharacteristics>, criteria: Criteria, i: nat)
    requires i <= |cams|
    requires forall j :: 0 <= j < i ==> !Qualifies(cams[j], criteria)
    ensures FindCamera(cams, criteria) == FindCamera(cams[i..], criteria)
  {
    if i > 0 {
      assert cams[1..][i - 1..] == cams[i..];
      FindCameraSkips(cams[1..], criteria, i - 1);
    }
  }

  /** The search as the service runs it: the camera manager comes from the bound activity. */
  function Lookup(activity: Option<Activity>, criteria: Criteria): Result<SelectedCameraDescription, Fault> {
    if activity.None? then Failure(MissingActivity)
    else
      var found := FindCamera(activity.value.cameras, criteria);
      if found.Success? then Success(found.value) else Failure(Camera(found.error))
  }

  // ---------------------------------------------------------------- steps

  /** Handles a state owns and that leaving it closes: the capture session first, then the device. */
  function CloseEvents(s: InnerState): seq<Event> {
    if s.CameraInSession? then [CloseSession(s.captureSession), CloseDevice(s.device)] else []
  }

  /** One output configuration per target, in order, each for the video-call use case. */
  function Outputs(targets: seq<Surface>): (r: seq<OutputConfiguration>)
    ensures |r| == |targets|
    ensures forall i :: 0 <= i < |r| ==> r[i].surface == targets[i] && r[i].streamUseCase == STREAM_USE_CASE_VIDEO_CALL
  {
    seq(|targets|, i requires 0 <= i < |targets| => OutputConfiguration(targets[i], STREAM_USE_CASE_VIDEO_CALL))
  }

  /**
   * selectCamera: under the lock, close what the current state holds, search,
   * and move to standby with the new description; a failed search leaves the
   * state as it was (but the handles are closed). The lock is always released.
   */
  function SelectCameraStep(m: Machine, criteria: Criteria): Step<Result<SelectedCameraDescription, Fault>> {
    var closed := m.(events := m.events + CloseEvents(m.state));
    var found := Lookup(m.activity, criteria);
    if found.Success? then Step(found, closed.(state := CameraStandby(criteria, found.value)))
    else Step(found, closed)
  }

  /** The exception each open answer turns into, if any. */
  function OpenFailure(opening: OpenOutcome): (f: Option<CameraException>)
    ensures opening.Opened? <==> f.None?
    ensures opening.Disconnected? ==> f == Some(CannotOpenCameraDisconnectedException)
    ensures opening.OpenError? ==> f == Some(CannotOpenCameraErrorException(opening.code))
    ensures opening.SecurityDenied? ==> f == Some(FromSecurityException(opening.cause))
  {
    match opening
    case Opened(_) => None
    case Disconnected(_) => Some(CannotOpenCameraDisconnectedException)
    case OpenError(_, code) => Some(CannotOpenCameraErrorException(code))
    case SecurityDenied(cause) => Some(FromSecurityException(cause))
  }

  /**
   * openCameraDevice: fetch the camera manager, select a camera again (a
   * re-entrant call of selectCamera), then open the selected camera. On an
   * error callback the device is closed before the failure surfaces.
   */
  function OpenCameraStep(m: Machine, criteria: Criteria, opening: OpenOutcome): Step<Result<Device, Fault>> {
    if m.activity.None? then Step(Failure(MissingActivity), m)
    else
      var selected := SelectCameraStep(m, criteria);
      if selected.result.Failure? then Step(Failure(selected.result.error), selected.after)
      else
        var id := selected.result.value.cameraId;
        var asked := selected.after.(events := selected.after.events + [OpenCamera(id)]);
        match opening
        case Opened(n) => Step(Success(Device(n, id)), asked)
        case Disconnected(_) => Step(Failure(Camera(CannotOpenCameraDisconnectedException)), asked)
        case OpenError(n, code) =>
          Step(Failure(Camera(CannotOpenCameraErrorException(code))), asked.(events := asked.events + [CloseDevice(Device(n, id))]))
        case SecurityDenied(cause) => Step(Failure(Camera(FromSecurityException(cause))), asked)
  }

  /** createCameraCaptureSession: one output per target; a failed configuration names the device. */
  function CreateSessionStep(m: Machine, device: Device, configuring: ConfigureOutcome): Step<Result<CaptureSession, Fault>> {
    var asked := m.(events := m.events + [CreateSession(device, Outputs(m.targets))]);
    match configuring
    case Configured(n) => Step(Success(CaptureSession(n)), asked)
    case ConfigureFailed => Step(Failure(Camera(CannotConfigureCameraCaptureSession(device.id))), asked)
  }

  /**
   * restart: take the lock, demand a selected camera, close the current
   * session and device, open a device, configure a session with every target
   * and enter the session built from the state captured at entry. The lock is
   * released only on success.
   */
  function RestartStep(m: Machine, opening: OpenOutcome, configuring: ConfigureOutcome): Step<Outcome<Fault>> {
    var locked := m.(holdCount := m.holdCount + 1);
    var entry := m.state;
    if !entry.IsStandby() then Step(Fail(Camera(NoCameraSelectedException)), locked)
    else
      var closed := locked.(events := locked.events + CloseEvents(entry));
      var openStep := OpenCameraStep(closed, entry.criteria, opening);
      if openStep.result.Failure? then Step(Fail(openStep.result.error), openStep.after)
      else
        var device := openStep.result.value;
        var configured := CreateSessionStep(openStep.after, device, configuring);
        if configured.result.Failure? then Step(Fail(configured.result.error), configured.after)
        else
          Step(Pass, configured.after.(
            state := CameraInSession(entry.criteria, entry.description, device, configured.result.value),
            holdCount := m.holdCount))
  }

  /** subscribe: append the surface (duplicates kept), then restart. */
  function SubscribeStep(m: Machine, surface: Surface, opening: OpenOutcome, configuring: ConfigureOutcome): Step<Outcome<Fault>> {
    RestartStep(m.(targets := m.targets + [surface]), opening, configuring)
  }

  /** stop: in session, close the session and the device and fall back to standby; otherwise nothing. */
  function StopStep(m: Machine): Machine {
    if m.state.CameraInSession? then
      m.(events := m.events + CloseEvents(m.state),
         state := CameraStandby(m.state.criteria, m.state.description))
    else m
  }

  /** onStop: stop, then forget the activity. */
  function OnStopStep(m: Machine): Machine {
    StopStep(m).(activity := None)
  }

  /** describeSelectedCamera. */
  function DescribeSelected(s: InnerState): (r: Result<SelectedCameraDescription, CameraException>)
    ensures r.Success? <==> s.IsStandby()
    ensures r.Failure? ==> r.error == NoCameraSelectedException
  {
    if s.IsStandby() then Success(s.description) else Failure(NoCameraSelectedException)
  }

  // ---------------------------------------------------------------- properties

  /** After a successful selection the service is in standby on it, and describing the camera returns it. */
  lemma SelectThenDescribe(m: Machine, criteria: Criteria)
    requires SelectCameraStep(m, criteria).result.Success?
    ensures var st := SelectCameraStep(m, criteria);
      && st.after.state == CameraStandby(criteria, st.result.value)
      && DescribeSelected(st.after.state) == Success(st.result.value)
      && st.after.targets == m.targets && st.after.holdCount == m.holdCount
  {
  }

  /**
   * Selection closes the capture session, then the device, before it searches;
   * a failed search leaves the state unassigned; the lock count is unchanged.
   */
  lemma SelectClosesFirst(m: Machine, criteria: Criteria)
    ensures var st := SelectCameraStep(m, criteria);
      && (m.state.CameraInSession? ==>
            st.after.events == m.events + [CloseSession(m.state.captureSession), CloseDevice(m.state.device)])
      && (!m.state.CameraInSession? ==> st.after.events == m.events)
      && (st.result.Failure? ==> st.after.state == m.state)
      && st.after.holdCount == m.holdCount
  {
  }

  /** The search fails with NoMatchingCameraException carrying the criteria exactly when no listed camera qualifies. */
  lemma SelectFailsWithoutMatch(m: Machine, criteria: Criteria)
    requires m.activity.Some?
    ensures SelectCameraStep(m, criteria).result == Failure(Camera(NoMatchingCameraException(criteria)))
            <==> forall i :: 0 <= i < |m.activity.value.cameras| ==> !Qualifies(m.activity.value.cameras[i], criteria)
  {
  }

  /** Restart fails with NoCameraSelectedException exactly when no camera is selected, and then holds the lock. */
  lemma RestartNeedsSelection(m: Machine, opening: OpenOutcome, configuring: ConfigureOutcome)
    ensures var st := RestartStep(m, opening, configuring);
      && (st.result == Fail(Camera(NoCameraSelectedException)) <==> !m.state.IsStandby())
      && (!m.state.IsStandby() ==> st.after == m.(holdCount := m.holdCount + 1))
  {
    var st := RestartStep(m, opening, configuring);
    if m.state.IsStandby() {
      var closed := m.(holdCount := m.holdCount + 1, events := m.events + CloseEvents(m.state));
      var openStep := OpenCameraStep(closed, m.state.criteria, opening);
      if openStep.result.Failure? && closed.activity.Some? {
        var found := FindCamera(closed.activity.value.cameras, m.state.criteria);
        if found.Failure? {
          assert found.error.NoMatchingCameraException?;
        }
      }
    }
  }

  /**
   * A successful restart holds a session built from the state at entry: the
   * criteria and description captured before the re-entrant selection, the
   * device just opened, and a session configured with one output per target.
   * The lock is released.
   */
  lemma RestartSucceeds(m: Machine, opening: OpenOutcome, configuring: ConfigureOutcome)
    requires RestartStep(m, opening, configuring).result.Pass?
    ensures var st := RestartStep(m, opening, configuring);
      && m.state.IsStandby() && m.activity.Some?
      && opening.Opened? && configuring.Configured?
      && st.after.state.CameraInSession?
      && st.after.state.criteria == m.state.criteria
      && st.after.state.description == m.state.description
      && st.after.state.captureSession == CaptureSession(configuring.session)
      && st.after.state.device.serial == opening.device
      && |st.after.events| > 0
      && st.after.events[|st.after.events| - 1] == CreateSession(st.after.state.device, Outputs(m.targets))
      && |Outputs(m.targets)| == |m.targets|
      && st.after.holdCount == m.holdCount
      && st.after.targets == m.targets
      && DescribeSelected(st.after.state) == Success(m.state.description)
  {
  }

  /** Restart releases the lock it took only when it succeeds: every failure leaves it held once more. */
  lemma RestartLockBalance(m: Machine, opening: OpenOutcome, configuring: ConfigureOutcome)
    ensures var st := RestartStep(m, opening, configuring);
      && (st.result.Pass? <==> st.after.holdCount == m.holdCount)
      && (st.result.Fail? <==> st.after.holdCount == m.holdCount + 1)
  {
  }

  /**
   * Restarting from a session closes its capture session and device twice:
   * once in restart itself, and again in the re-entrant selection, which still
   * sees the old state.
   */
  lemma RestartClosesTwice(m: Machine, opening: OpenOutcome, configuring: ConfigureOutcome)
    requires m.state.CameraInSession? && m.activity.Some?
    ensures var st := RestartStep(m, opening, configuring);
      var s, d := m.state.captureSession, m.state.device;
      && |st.after.events| >= |m.events| + 4
      && st.after.events[..|m.events| + 4] == m.events + [CloseSession(s), CloseDevice(d), CloseSession(s), CloseDevice(d)]
  {
    var st := RestartStep(m, opening, configuring);
    var s, d := m.state.captureSession, m.state.device;
    var twice := m.events + [CloseSession(s), CloseDevice(d)] + [CloseSession(s), CloseDevice(d)];
    assert twice == m.events + [CloseSession(s), CloseDevice(d), CloseSession(s), CloseDevice(d)];
    assert twice <= st.after.events;
  }

  /**
   * Once a camera is found again, each open answer decides the outcome: an
   * opened device goes on to configuration, the others fail with their
   * exception; an error callback closes the device first; a failed
   * configuration names the opened device.
   */
  lemma RestartOpenOutcomes(m: Machine, opening: OpenOutcome, configuring: ConfigureOutcome)
    requires m.state.IsStandby()
    requires Lookup(m.activity, m.state.criteria).Success?
    ensures var st := RestartStep(m, opening, configuring);
      var id := Lookup(m.activity, m.state.criteria).value.cameraId;
      && (st.result.Fail? ==> st.after.state == CameraStandby(m.state.criteria, Lookup(m.activity, m.state.criteria).value))
      && (OpenFailure(opening).Some? ==> st.result == Fail(Camera(OpenFailure(opening).value)))
      && (opening.OpenError? ==> st.after.events[|st.after.events| - 1] == CloseDevice(Device(opening.device, id)))
      && (opening.Opened? && configuring.ConfigureFailed? ==>
            st.result == Fail(Camera(CannotConfigureCameraCaptureSession(id))))
      && (opening.Opened? && configuring.Configured? ==> st.result == Pass)
  {
  }

  /**
   * Restart does not look at the targets: with none at all, a selected and
   * still present camera is opened and configured with no outputs.
   */
  lemma RestartWithoutTargets(m: Machine, device: nat, session: nat)
    requires m.targets == [] && m.state.IsStandby()
    requires Lookup(m.activity, m.state.criteria).Success?
    ensures var st := RestartStep(m, Opened(device), Configured(session));
      && st.result == Pass
      && st.after.state.CameraInSession?
      && st.after.events[|st.after.events| - 1] == CreateSession(st.after.state.device, [])
  {
    RestartOpenOutcomes(m, Opened(device), Configured(session));
    RestartSucceeds(m, Opened(device), Configured(session));
  }

  /** Subscribing appends the surface even when it is already a target. */
  lemma SubscribeKeepsDuplicates(m: Machine, surface: Surface, opening: OpenOutcome, configuring: ConfigureOutcome)
    ensures var st := SubscribeStep(m, surface, opening, configuring);
      && st.after.targets == m.targets + [surface]
      && |st.after.targets| == |m.targets| + 1
      && (surface in m.targets ==> multiset(st.after.targets)[surface] == multiset(m.targets)[surface] + 1)
  {
  }

  /**
   * Stop drops a session to standby with the same criteria and description,
   * closing the session and then the device; in any other state it changes
   * nothing. It never touches the targets or the lock, and is idempotent.
   */
  lemma StopProperties(m: Machine)
    ensures m.state.CameraInSession? ==>
      && StopStep(m).state == CameraStandby(m.state.criteria, m.state.description)
      && StopStep(m).events == m.events + [CloseSession(m.state.captureSession), CloseDevice(m.state.device)]
    ensures !m.state.CameraInSession? ==> StopStep(m) == m
    ensures StopStep(m).targets == m.targets && StopStep(m).holdCount == m.holdCount
    ensures StopStep(StopStep(m)) == StopStep(m)
    ensures DescribeSelected(StopStep(m).state) == DescribeSelected(m.state)
  {
  }

  /** A session always has a target to stream to. */
  ghost predicate SessionHasTargets(m: Machine) {
    m.state.CameraInSession? ==> |m.targets| > 0
  }

  /** Every public operation keeps "a session has a target" (targets are only ever appended to). */
  lemma SessionHasTargetsPreserved(m: Machine, criteria: Criteria, surface: Surface,
                                   opening: OpenOutcome, configuring: ConfigureOutcome, a: Activity)
    requires SessionHasTargets(m)
    ensures SessionHasTargets(SelectCameraStep(m, criteria).after)
    ensures SessionHasTargets(SubscribeStep(m, surface, opening, configuring).after)
    ensures SessionHasTargets(StopStep(m))
    ensures SessionHasTargets(OnStopStep(m))
    ensures SessionHasTargets(m.(activity := Some(a)))
  {
  }
}

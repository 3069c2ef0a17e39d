/**
 * The camera service as an object: its state, its list of targets, the bound
 * activity, the lock's hold count and a ghost log of what it does to the
 * platform. Each method runs one step of module CameraModel in place.
 */
module CameraService {
  import opened Wrappers
  import opened SelectionCriteria
  import opened CameraExceptions
  import opened CameraModel
  import Permissions

  // Manifest.permission names and Build.VERSION_CODES.P.
  const CAMERA: string := "android.permission.CAMERA"
  const RECORD_AUDIO: string := "android.permission.RECORD_AUDIO"
  const WRITE_EXTERNAL_STORAGE: string := "android.permission.WRITE_EXTERNAL_STORAGE"
  const VERSION_CODES_P: int := 28

  // The reason shown for each permission.
  const CAMERA_REASON: string :=
    "Camera allows to see from the Point Of View of your vehicle - without it, this application is useless"
  const RECORD_AUDIO_REASON: string := "Recording audio allows to hear what's happening around your vehicle."
  const WRITE_EXTERNAL_STORAGE_REASON: string := "Writing to external storage enables taking snapshots."

  class CameraImpl {
    var targets: seq<Surface>
    var activity: Option<Activity>
    var state: InnerState
    var holdCount: nat           // the re-entrant lock's hold count
    ghost var events: seq<Event>

    ghost function Model(): Machine
      reads this
    {
      Machine(state, targets, activity, holdCount, events)
    }

    constructor ()
      ensures Model() == Machine(NoCameraSelected, [], None, 0, [])
    {
      targets := [];
      activity := None;
      state := NoCameraSelected;
      holdCount := 0;
      events := [];
    }

    /**
     * requiredPermissions: camera, then audio recording, then, on platform
     * versions up to P only, external storage.
     */
    method RequiredPermissions(sdkInt: int) returns (ps: seq<Permissions.RequiredPermission>)
      ensures |ps| == (if sdkInt <= VERSION_CODES_P then 3 else 2)
      ensures ps[0] == Permissions.RequiredPermission(CAMERA, CAMERA_REASON)
      ensures ps[1] == Permissions.RequiredPermission(RECORD_AUDIO, RECORD_AUDIO_REASON)
      ensures sdkInt <= VERSION_CODES_P ==>
                ps[2] == Permissions.RequiredPermission(WRITE_EXTERNAL_STORAGE, WRITE_EXTERNAL_STORAGE_REASON)
      ensures forall i :: 0 <= i < |ps| ==> |ps[i].reason| > 0
    {
      ps := [
        Permissions.RequiredPermission(CAMERA, CAMERA_REASON),
        Permissions.RequiredPermission(RECORD_AUDIO, RECORD_AUDIO_REASON)
      ];
      if sdkInt <= VERSION_CODES_P {
        ps := ps + [Permissions.RequiredPermission(WRITE_EXTERNAL_STORAGE, WRITE_EXTERNAL_STORAGE_REASON)];
      }
    }

    method OnStart(a: Activity)
      modifies this`activity
      ensures Model() == old(Model()).(activity := Some(a))
    {
      activity := Some(a);
    }

    method OnStop()
      modifies this
      ensures Model() == OnStopStep(old(Model()))
    {
      Stop();
      activity := None;
    }

    method Lock()
      modifies this`holdCount
      ensures holdCount == old(holdCount) + 1
    {
      holdCount := holdCount + 1;
    }

    method Unlock()
      requires holdCount > 0
      modifies this`holdCount
      ensures holdCount == old(holdCount) - 1
    {
      holdCount := holdCount - 1;
    }

    /** selectCamera: the lock is released on both the normal and the exceptional exit. */
    method SelectCamera(criteria: Criteria) returns (r: Result<SelectedCameraDescription, Fault>)
      modifies this`holdCount, this`state, this`events
      ensures r == SelectCameraStep(old(Model()), criteria).result
      ensures Model() == SelectCameraStep(old(Model()), criteria).after
    {
      Lock();
      var newState := DoSelectCamera(state, criteria);
      if newState.Failure? {
        Unlock();
        return Failure(newState.error);
      }
      state := newState.value;
      Unlock();
      return Success(newState.value.description);
    }

    /** doSelectCamera: close the session, then the device, then search. */
    method DoSelectCamera(currentState: InnerState, criteria: Criteria) returns (r: Result<InnerState, Fault>)
      modifies this`events
      ensures events == old(events) + CloseEvents(currentState)
      ensures var found := Lookup(activity, criteria);
        r == if found.Success? then Success(CameraStandby(criteria, found.value)) else Failure(found.error)
    {
      if currentState.CameraInSession? {
        events := events + [CloseSession(currentState.captureSession)];
      }
      if currentState.CameraInSession? {
        events := events + [CloseDevice(currentState.device)];
      }
      var selectedCamera := FindCameraAndConfiguration(criteria);
      if selectedCamera.Failure? {
        return Failure(selectedCamera.error);
      }
      return Success(CameraStandby(criteria, selectedCamera.value));
    }

    /**
     * findCameraAndConfiguration: walk the camera list, skip every camera that
     * fails a test, and describe the first that passes them all.
     */
    method FindCameraAndConfiguration(criteria: Criteria) returns (r: Result<SelectedCameraDescription, Fault>)
      ensures r == Lookup(activity, criteria)
      ensures r.Success? ==> exists i :: FirstQualifying(activity.value.cameras, criteria, i)
                                        && r.value == Describe(activity.value.cameras[i], criteria)
    {
      if activity.None? {
        return Failure(MissingActivity);
      }
      var cameraIdList := activity.value.cameras;
      var i := 0;
      while i < |cameraIdList|
        invariant 0 <= i <= |cameraIdList|
        invariant forall j :: 0 <= j < i ==> !Qualifies(cameraIdList[j], criteria)
      {
        var characteristics := cameraIdList[i];
        var backwardCompatible := characteristics.capabilities.Some?
          && BACKWARD_COMPATIBLE in characteristics.capabilities.value;
        if !backwardCompatible {
          i := i + 1;
          continue;
        }
        if !criteria.facing.Matches(characteristics.lensFacing) {
          i := i + 1;
          continue;
        }
        if !criteria.focalLength.Matches(characteristics.focalLengths) {
          i := i + 1;
          continue;
        }
        var outputSizes := characteristics.outputSizes;
        var mostAppropriateOutputSize := MinByError(outputSizes, criteria.size);
        if mostAppropriateOutputSize.None? {
          i := i + 1;
          continue;
        }
        FindCameraSkips(cameraIdList, criteria, i);
        return Success(SelectedCameraDescription(characteristics.id, mostAppropriateOutputSize.value));
      }
      FindCameraSkips(cameraIdList, criteria, i);
      return Failure(Camera(NoMatchingCameraException(criteria)));
    }

    /** minByOrNull on the output sizes, keeping the first of equally good sizes. */
    static method MinByError(sizes: Option<seq<Size>>, target: SizeLimit) returns (r: Option<Size>)
      ensures r.None? <==> sizes.None? || |sizes.value| == 0
      ensures r.Some? ==> r.value == sizes.value[MinErrorIndex(sizes.value, target)]
    {
      if sizes.None? || |sizes.value| == 0 {
        return None;
      }
      var s := sizes.value;
      var best := 0;
      var bestError := target.Error(s[0]);
      for i := 1 to |s|
        invariant best == MinErrorIndex(s[..i], target)
        invariant bestError == target.Error(s[best])
      {
        assert s[..i + 1][..i] == s[..i];
        var e := target.Error(s[i]);
        if e < bestError {
          best, bestError := i, e;
        }
      }
      assert s[..|s|] == s;
      return Some(s[best]);
    }

    /** describeSelectedCamera. */
    method DescribeSelectedCamera() returns (r: Result<SelectedCameraDescription, CameraException>)
      ensures r == DescribeSelected(state)
      ensures r.Success? ==> state.IsStandby() && r.value == state.description
    {
      match state
      case NoCameraSelected => return Failure(NoCameraSelectedException);
      case CameraStandby(_, description) => return Success(description);
      case CameraInSession(_, description, _, _) => return Success(description);
    }

    /**
     * subscribe: append the surface, then restart. The platform's answers to
     * the open and configure requests are parameters.
     */
    method Subscribe(surface: Surface, opening: OpenOutcome, configuring: ConfigureOutcome) returns (r: Outcome<Fault>)
      modifies this
      ensures r == SubscribeStep(old(Model()), surface, opening, configuring).result
      ensures Model() == SubscribeStep(old(Model()), surface, opening, configuring).after
    {
      targets := targets + [surface];
      r := Restart(opening, configuring);
    }

    /**
     * restart: the lock is taken and released only on the normal exit; every
     * exception leaves it held.
     */
    method Restart(opening: OpenOutcome, configuring: ConfigureOutcome) returns (r: Outcome<Fault>)
      modifies this
      ensures r == RestartStep(old(Model()), opening, configuring).result
      ensures Model() == RestartStep(old(Model()), opening, configuring).after
    {
      ghost var m := Model();
      Lock();
      ghost var locked := Model();
      var currentState := state;
      if !currentState.IsStandby() {
        return Fail(Camera(NoCameraSelectedException));
      }
      events := events + CloseEvents(currentState);
      ghost var closed := Model();
      assert closed == locked.(events := locked.events + CloseEvents(m.state));
      var device := OpenCameraDevice(currentState.criteria, opening);
      ghost var openStep := OpenCameraStep(closed, m.state.criteria, opening);
      if device.Failure? {
        return Fail(device.error);
      }
      assert Model() == openStep.after;
      var captureSession := CreateCameraCaptureSession(device.value, configuring);
      ghost var configured := CreateSessionStep(openStep.after, device.value, configuring);
      if captureSession.Failure? {
        return Fail(captureSession.error);
      }
      state := CameraInSession(currentState.criteria, currentState.description, device.value, captureSession.value);
      Unlock();
      assert Model() == configured.after.(
        state := CameraInSession(m.state.criteria, m.state.description, device.value, captureSession.value),
        holdCount := m.holdCount);
      return Pass;
    }

    /** openCameraDevice: select again (re-entering selectCamera), then open the selected camera. */
    method OpenCameraDevice(criteria: Criteria, opening: OpenOutcome) returns (r: Result<Device, Fault>)
      modifies this`holdCount, this`state, this`events
      ensures r == OpenCameraStep(old(Model()), criteria, opening).result
      ensures Model() == OpenCameraStep(old(Model()), criteria, opening).after
    {
      if activity.None? {
        return Failure(MissingActivity);
      }
      var selectedCamera := SelectCamera(criteria);
      if selectedCamera.Failure? {
        return Failure(selectedCamera.error);
      }
      var id := selectedCamera.value.cameraId;
      events := events + [OpenCamera(id)];
      match opening
      case Opened(n) =>
        return Success(Device(n, id));
      case Disconnected(_) =>
        return Failure(Camera(CannotOpenCameraDisconnectedException));
      case OpenError(n, code) =>
        events := events + [CloseDevice(Device(n, id))];
        return Failure(Camera(CannotOpenCameraErrorException(code)));
      case SecurityDenied(cause) =>
        return Failure(Camera(FromSecurityException(cause)));
    }

    /** createCameraCaptureSession: one output configuration per current target. */
    method CreateCameraCaptureSession(device: Device, configuring: ConfigureOutcome) returns (r: Result<CaptureSession, Fault>)
      modifies this`events
      ensures r == CreateSessionStep(old(Model()), device, configuring).result
      ensures Model() == CreateSessionStep(old(Model()), device, configuring).after
    {
      var outputs := Outputs(targets);
      events := events + [CreateSession(device, outputs)];
      match configuring
      case Configured(n) =>
        return Success(CaptureSession(n));
      case ConfigureFailed =>
        return Failure(Camera(CannotConfigureCameraCaptureSession(device.id)));
    }

    /** stop: under the lock, close the session and the device and fall back to standby. */
    method Stop()
      modifies this`holdCount, this`state, this`events
      ensures Model() == StopStep(old(Model()))
    {
      Lock();
      var currentState := state;
      if currentState.CameraInSession? {
        events := events + [CloseSession(currentState.captureSession)];
        events := events + [CloseDevice(currentState.device)];
        state := CameraStandby(currentState.criteria, currentState.description);
      }
      Unlock();
    }
  }
}

/**
 * The camera-control screen's view model: a guarded state machine over
 * ControlServiceState.ServiceState. Each action checks the current state when
 * it is called; what it launches in the background is kept as a pending job,
 * and the job's later completion is a separate method that applies the result
 * without checking the state again.
 */
module CameraControlViewModels {
  import opened Wrappers
  import opened ControlServiceState
  import opened CameraExceptions
  import opened CameraModel

  datatype UiState = UiState(
    cameraState: ServiceState,
    selectedCamera: Option<SelectedCameraDescription>,
    exception: Option<CameraException>)

  /** A block launched in the view model's scope and not yet finished. */
  datatype Job =
    | VerifyPermissions
    | Subscribe(surface: Surface)
    | Unsubscribe(surface: Surface)
    | StopService

  /** pending with the k-th job removed. */
  function Without(pending: seq<Job>, k: nat): (r: seq<Job>)
    requires k < |pending|
    ensures |r| == |pending| - 1
    ensures forall j :: j in r ==> j in pending
  {
    pending[..k] + pending[k + 1..]
  }

  class CameraControlViewModel {
    var uiState: UiState
    var pending: seq<Job>

    /**
     * What every reachable view model satisfies: the permission check is the
     * only job while the state says so; a camera state past PERMISSION_GRANTED,
     * and any camera job in flight, come with a selected camera; ERROR always
     * carries its exception; and STOPPED is never shown again.
     */
    ghost predicate Valid()
      reads this
    {
      && uiState.cameraState != Stopped
      && (uiState.cameraState == RequestingPermission <==> pending == [VerifyPermissions])
      && (VerifyPermissions in pending ==> pending == [VerifyPermissions])
      && ((uiState.cameraState in {StartingUp, Running, Stopping}
           || exists j :: j in pending && !j.VerifyPermissions?) ==> uiState.selectedCamera.Some?)
      && (uiState.cameraState == Error ==> uiState.exception.Some?)
    }

    /** Construction, including requestPermissionForCamera's first phase. */
    constructor ()
      ensures Valid()
      ensures uiState == UiState(RequestingPermission, None, None)
      ensures pending == [VerifyPermissions]
    {
      uiState := UiState(RequestingPermission, None, None);
      pending := [VerifyPermissions];
    }

    /** requestPermissionForCamera's second phase: the verification answered. */
    method CompleteVerifyPermissions(k: nat, permissionsGranted: bool)
      requires Valid() && k < |pending| && pending[k] == VerifyPermissions
      modifies this
      ensures Valid()
      ensures uiState == old(uiState).(cameraState := if permissionsGranted then PermissionGranted else PermissionNotGranted)
      ensures pending == Without(old(pending), k)
    {
      uiState := uiState.(cameraState := if permissionsGranted then PermissionGranted else PermissionNotGranted);
      pending := Without(pending, k);
    }

    /**
     * startCamera: in PERMISSION_GRANTED only, select a camera with the
     * default criteria; `selection` is what selectCamera returned or threw.
     */
    method StartCamera(selection: Result<SelectedCameraDescription, CameraException>)
      requires Valid()
      modifies this`uiState
      ensures Valid()
      ensures old(uiState.cameraState) != PermissionGranted ==> uiState == old(uiState)
      ensures old(uiState.cameraState) == PermissionGranted && selection.Success? ==>
        uiState == old(uiState).(cameraState := StartingUp, selectedCamera := Some(selection.value))
      ensures old(uiState.cameraState) == PermissionGranted && selection.Failure? ==>
        uiState == old(uiState).(cameraState := Error, exception := Some(selection.error))
    {
      if uiState.cameraState == PermissionGranted {
        match selection
        case Success(description) =>
          uiState := uiState.(cameraState := StartingUp, selectedCamera := Some(description));
        case Failure(e) =>
          uiState := uiState.(cameraState := Error, exception := Some(e));
      }
    }

    /** activateCamera: in STARTING_UP only, launch a subscription of the surface. */
    method ActivateCamera(surface: Surface)
      requires Valid()
      modifies this`pending
      ensures Valid()
      ensures pending == if old(uiState.cameraState) == StartingUp then old(pending) + [Subscribe(surface)] else old(pending)
    {
      if uiState.cameraState == StartingUp {
        pending := pending + [Subscribe(surface)];
        assert pending[|pending| - 1] == Subscribe(surface);
      }
    }

    /** activateCamera's launched block: RUNNING, or ERROR with the exception. */
    method CompleteSubscribe(k: nat, outcome: Outcome<CameraException>)
      requires Valid() && k < |pending| && pending[k].Subscribe?
      modifies this
      ensures Valid()
      ensures uiState == if outcome.Pass? then old(uiState).(cameraState := Running)
                         else old(uiState).(cameraState := Error, exception := Some(outcome.error))
      ensures pending == Without(old(pending), k)
    {
      assert pending[k] in pending;
      if outcome.Pass? {
        uiState := uiState.(cameraState := Running);
      } else {
        uiState := uiState.(cameraState := Error, exception := Some(outcome.error));
      }
      pending := Without(pending, k);
    }

    /** deActivateCamera: in RUNNING only, launch an unsubscription of the surface. */
    method DeActivateCamera(surface: Surface)
      requires Valid()
      modifies this`pending
      ensures Valid()
      ensures pending == if old(uiState.cameraState) == Running then old(pending) + [Unsubscribe(surface)] else old(pending)
    {
      if uiState.cameraState == Running {
        pending := pending + [Unsubscribe(surface)];
        assert pending[|pending| - 1] == Unsubscribe(surface);
      }
    }

    /** deActivateCamera's launched block: back to STARTING_UP, or ERROR with the exception. */
    method CompleteUnsubscribe(k: nat, outcome: Outcome<CameraException>)
      requires Valid() && k < |pending| && pending[k].Unsubscribe?
      modifies this
      ensures Valid()
      ensures uiState == if outcome.Pass? then old(uiState).(cameraState := StartingUp)
                         else old(uiState).(cameraState := Error, exception := Some(outcome.error))
      ensures pending == Without(old(pending), k)
    {
      assert pending[k] in pending;
      if outcome.Pass? {
        uiState := uiState.(cameraState := StartingUp);
      } else {
        uiState := uiState.(cameraState := Error, exception := Some(outcome.error));
      }
      pending := Without(pending, k);
    }

    /** stopCamera: in RUNNING only, show STOPPING and launch the stop. */
    method StopCamera()
      requires Valid()
      modifies this
      ensures Valid()
      ensures old(uiState.cameraState) != Running ==> uiState == old(uiState) && pending == old(pending)
      ensures old(uiState.cameraState) == Running ==>
        uiState == old(uiState).(cameraState := Stopping) && pending == old(pending) + [StopService]
    {
      if uiState.cameraState == Running {
        uiState := uiState.(cameraState := Stopping);
        pending := pending + [StopService];
        assert pending[|pending| - 1] == StopService;
      }
    }

    /** stopCamera's launched block: once the camera has stopped, PERMISSION_GRANTED. */
    method CompleteStop(k: nat)
      requires Valid() && k < |pending| && pending[k] == StopService
      modifies this
      ensures Valid()
      ensures uiState == old(uiState).(cameraState := PermissionGranted)
      ensures pending == Without(old(pending), k)
    {
      assert pending[k] in pending;
      uiState := uiState.(cameraState := PermissionGranted);
      pending := Without(pending, k);
    }
  }
}

/**
 * The main screen's view model, over LegacyServiceState.ServiceState. As in
 * module CameraControlViewModels, each action has an immediate guarded phase
 * and a launched phase that completes later; here every action also moves the
 * state before launching, so at most one job is ever in flight and the state
 * shown says which.
 */
module SiCausViewModels {
  import opened Wrappers
  import opened LegacyServiceState
  import opened CameraExceptions
  import opened CameraModel

  datatype UiState = UiState(cameraState: ServiceState, exception: Option<CameraException>)

  datatype Job =
    | VerifyPermissions
    | Subscribe(surface: Surface)
    | StopService

  class SiCausViewModel {
    var uiState: UiState
    var pending: seq<Job>

    /**
     * The state determines the pending work: REQUESTING_PERMISSION waits for
     * the permission check, STARTING_UP for the subscription, STOPPING for the
     * stop, and every other reachable state has nothing in flight. ERROR
     * always carries its exception.
     */
    ghost predicate Valid()
      reads this
    {
      && (match uiState.cameraState
          case RequestingPermission => pending == [VerifyPermissions]
          case StartingUp => |pending| == 1 && pending[0].Subscribe?
          case Stopping => pending == [StopService]
          case Stopped => false
          case _ => pending == [])
      && (uiState.cameraState == Error ==> uiState.exception.Some?)
    }

    /** Construction, including requestPermissionForCamera's first phase. */
    constructor ()
      ensures Valid()
      ensures uiState == UiState(RequestingPermission, None)
      ensures pending == [VerifyPermissions]
    {
      uiState := UiState(RequestingPermission, None);
      pending := [VerifyPermissions];
    }

    /** requestPermissionForCamera's launched phase: the verification answered. */
    method CompleteVerifyPermissions(k: nat, permissionsGranted: bool)
      requires Valid() && k < |pending| && pending[k] == VerifyPermissions
      modifies this
      ensures Valid()
      ensures old(uiState.cameraState) == RequestingPermission
      ensures uiState == old(uiState).(cameraState := if permissionsGranted then PermissionGranted else PermissionNotGranted)
      ensures pending == []
    {
      uiState := uiState.(cameraState := if permissionsGranted then PermissionGranted else PermissionNotGranted);
      pending := pending[..k] + pending[k + 1..];
    }

    /** startCamera: in PERMISSION_GRANTED only, show STARTING_UP and launch the subscription. */
    method StartCamera(surface: Surface)
      requires Valid()
      modifies this
      ensures Valid()
      ensures old(uiState.cameraState) != PermissionGranted ==> uiState == old(uiState) && pending == old(pending)
      ensures old(uiState.cameraState) == PermissionGranted ==>
        uiState == old(uiState).(cameraState := StartingUp) && pending == [Subscribe(surface)]
    {
      if uiState.cameraState == PermissionGranted {
        uiState := uiState.(cameraState := StartingUp);
        pending := pending + [Subscribe(surface)];
      }
    }

    /** startCamera's launched phase: RUNNING, or ERROR with the exception recorded. */
    method CompleteSubscribe(k: nat, outcome: Outcome<CameraException>)
      requires Valid() && k < |pending| && pending[k].Subscribe?
      modifies this
      ensures Valid()
      ensures old(uiState.cameraState) == StartingUp
      ensures uiState == if outcome.Pass? then old(uiState).(cameraState := Running)
                         else old(uiState).(cameraState := Error, exception := Some(outcome.error))
      ensures pending == []
    {
      if outcome.Pass? {
        uiState := uiState.(cameraState := Running);
      } else {
        uiState := uiState.(cameraState := Error, exception := Some(outcome.error));
      }
      pending := pending[..k] + pending[k + 1..];
    }

    /** stopCamera: in RUNNING only, show STOPPING and launch the stop. */
    method StopCamera()
      requires Valid()
      modifies this
      ensures Valid()
      ensures old(uiState.cameraState) != Running ==> uiState == old(uiState) && pending == old(pending)
      ensures old(uiState.cameraState) == Running ==>
        uiState == old(uiState).(cameraState := Stopping) && pending == [StopService]
    {
      if uiState.cameraState == Running {
        uiState := uiState.(cameraState := Stopping);
        pending := pending + [StopService];
      }
    }

    /** stopCamera's launched phase: once the camera has stopped, PERMISSION_GRANTED. */
    method CompleteStop(k: nat)
      requires Valid() && k < |pending| && pending[k] == StopService
      modifies this
      ensures Valid()
      ensures old(uiState.cameraState) == Stopping
      ensures uiState == old(uiState).(cameraState := PermissionGranted)
      ensures pending == []
    {
      uiState := uiState.(cameraState := PermissionGranted);
      pending := pending[..k] + pending[k + 1..];
    }
  }
}

/**
 * The service-state enumeration of the camera-control screen, with its
 * canStart and isRunning truth tables.
 */
module ControlServiceState {

  datatype ServiceState =
    | Stopped
    | RequestingPermission
    | PermissionGranted
    | PermissionNotGranted
    | StartingUp
    | Error
    | Running
    | Stopping
  {
    /** The camera is not running, although it could start. */
    predicate CanStart()
      ensures CanStart() <==> this in {Stopped, RequestingPermission, PermissionGranted}
    {
      match this
      case Stopped => true
      case RequestingPermission => true
      case PermissionGranted => true
      case PermissionNotGranted => false
      case StartingUp => false
      case Error => false
      case Running => false
      case Stopping => false
    }

    /** The camera is running or about to run. */
    predicate IsRunning()
      ensures IsRunning() <==> this in {StartingUp, Running}
    {
      match this
      case Stopped => false
      case RequestingPermission => false
      case PermissionGranted => false
      case PermissionNotGranted => false
      case StartingUp => true
      case Error => false
      case Running => true
      case Stopping => false
    }
  }

  /** The two tables never hold together. */
  lemma CanStartExcludesRunning(s: ServiceState)
    ensures !(s.CanStart() && s.IsRunning())
  {
  }

  /** The states in which no start button and no stop button apply. */
  lemma NeitherHolds(s: ServiceState)
    ensures !s.CanStart() && !s.IsRunning() <==> s in {PermissionNotGranted, Error, Stopping}
  {
  }
}

/**
 * The older service-state enumeration of the main screen, whose canStart and
 * isRunning tables differ from those of the camera-control screen.
 */
module LegacyServiceState {

  datatype ServiceState =
    | Stopped
    | RequestingPermission
    | PermissionGranted
    | PermissionNotGranted
    | StartingUp
    | Error
    | Running
    | Stopping
  {
    predicate CanStart()
      ensures CanStart() <==> this in {PermissionGranted, StartingUp, Running, Stopping}
    {
      match this
      case Stopped => false
      case RequestingPermission => false
      case PermissionGranted => true
      case PermissionNotGranted => false
      case StartingUp => true
      case Error => false
      case Running => true
      case Stopping => true
    }

    predicate IsRunning()
      ensures IsRunning() <==> this in {StartingUp, Running, Stopping}
    {
      match this
      case Stopped => false
      case RequestingPermission => false
      case PermissionGranted => false
      case PermissionNotGranted => false
      case StartingUp => true
      case Error => false
      case Running => true
      case Stopping => true
    }
  }

  /** In this table a running service can always "start". */
  lemma RunningImpliesCanStart(s: ServiceState)
    ensures s.IsRunning() ==> s.CanStart()
  {
  }

  /** The only state that can start without running is the granted one. */
  lemma CanStartOnlyGranted(s: ServiceState)
    ensures s.CanStart() && !s.IsRunning() <==> s == PermissionGranted
  {
  }

  lemma NeitherHolds(s: ServiceState)
    ensures !s.CanStart() && !s.IsRunning() <==> s in {Stopped, RequestingPermission, PermissionNotGranted, Error}
  {
  }
}

# SiCaus PatapOV camera core, in Dafny

SiCaus PatapOV is an Android point-of-view camera app. This project models its core logic:

- **Camera selection.** The selection criteria are facing, focal-length band and target size. The camera search walks the camera list and picks the first camera that passes all three tests. It then picks the output size whose score against the target is smallest.
- **The camera service.** `CameraImpl` holds a three-level state: no camera selected, camera in standby, camera in session. It also holds a list of target surfaces, the bound activity and a re-entrant lock. Its operations are select, describe, subscribe, restart, stop and the activity-lifecycle hooks.
- **The camera exceptions** and the messages they carry.
- **The permission broker** (`PermissionProviderImpl`) and the permission-request composable with its helpers (`RequestPermissions.kt`).
- **Two service-state enumerations.** Each has its own `canStart`/`isRunning` tables.
- **Two view models.** Each is a guarded workflow over one of those enumerations.
- **The integer geometry of the two preview views**: rotation codes, relative rotation, the width/height swap and the scale branches.

Each core file has a module. The camera service has two (`CameraModel` and `CameraService`), the two preview views share `PreviewGeometry`, and `Wrappers` holds the option and result types.

- Pure code becomes datatypes, functions and lemmas. This covers selection criteria, exceptions, service states and the rotation arithmetic.
- Code that updates fields becomes a class whose methods `modify` those fields. This covers `CameraImpl`, `PermissionProviderImpl`, the `RequestPermissions` composable, both view models and both preview views.

The camera service comes in two parts:

- Module `CameraModel` states it as pure step functions over a `Machine` record.
- Class `CameraService.CameraImpl` runs the same steps in place. Each method ensures `Model() == XStep(old(Model()), …).after`, and the lemmas of `CameraModel` state what those steps do.

Platform answers are parameters:

- the camera list (a `seq` of characteristic records);
- the device-open outcome: opened, disconnected, error(code) or security exception;
- the session-configure outcome: configured or failed;
- the permission host: its granted set, the permissions it flags for a rationale, and whether it is a result-registry owner;
- the permission answer map.

Closing a handle, opening a camera, creating a session, showing a rationale, launching a request and unregistering a listener are appended to ghost event logs.

Behaviours of the camera service that the model keeps as the code has them:

- Subscribing appends the surface to a list, so the same surface subscribed twice is kept twice (`CameraImpl.kt:218-221`).
- `stop` closes the session and device and drops to standby, but leaves the target list as it is (`CameraImpl.kt:306-315`).
- `restart` opens the camera and configures a session even when there are no targets (`CameraImpl.kt:224-243`).
- A failing `restart` throws before `lock.unlock()`, so the lock stays held (`CameraImpl.kt:224-243`).

## Model

| member | source | states |
|---|---|---|
| SelectionCriteria.DefaultCriteria | app/src/main/java/com/sicaus/patapov/services/camera/CameraSelectionCriteria.kt:11-14 | the default criteria face back, use the medium band (contains 1.0, excludes 0.499 and 2.0) and target 1024×768 |
| SelectionCriteria.FacingMatchesOne | app/src/main/java/com/sicaus/patapov/services/camera/CameraSelectionCriteria.kt:21-23 | a missing lens facing never matches, and a lens facing matches at most one facing |
| SelectionCriteria.AnyInBand | app/src/main/java/com/sicaus/patapov/services/camera/CameraSelectionCriteria.kt:36-41 | the `any` test holds iff some listed focal length lies in the closed band |
| SelectionCriteria.EmptyFocalLengthsNeverMatch | app/src/main/java/com/sicaus/patapov/services/camera/CameraSelectionCriteria.kt:36-41 | an absent or empty focal-length array matches no band |
| SelectionCriteria.BandsDisjoint | app/src/main/java/com/sicaus/patapov/services/camera/CameraSelectionCriteria.kt:32-34 | SMALL < MEDIUM < LARGE and no focal length lies in two bands |
| SelectionCriteria.ErrorSymmetric | app/src/main/java/com/sicaus/patapov/services/camera/CameraSelectionCriteria.kt:49-53 | swapping target and candidate leaves the size score unchanged |
| SelectionCriteria.ErrorNonNegative | app/src/main/java/com/sicaus/patapov/services/camera/CameraSelectionCriteria.kt:49-53 | for non-negative dimensions the score is ≥ 0, and 0 for equal sizes |
| SelectionCriteria.ErrorZeroIffEqual | app/src/main/java/com/sicaus/patapov/services/camera/CameraSelectionCriteria.kt:50-52 | for positive dimensions the score is 0 exactly when both sizes are equal |
| SelectionCriteria.ErrorFitsInt32 | app/src/main/java/com/sicaus/patapov/services/camera/CameraSelectionCriteria.kt:49-53 | with every dimension at most 46340 the 32-bit score cannot overflow |
| CameraExceptions.ErrorCodeMessage | app/src/main/java/com/sicaus/patapov/services/camera/CameraException.kt:18-26 | each of the five known codes gives the name of its constant; any other code gives "Unknown camera error: " and the code |
| CameraExceptions.IntToString | app/src/main/java/com/sicaus/patapov/services/camera/CameraException.kt:25 | the rendered code starts with a minus sign exactly when it is negative |
| CameraExceptions.NatToStringRoundTrip | app/src/main/java/com/sicaus/patapov/services/camera/CameraException.kt:25 | the decimal digits of a natural number read back as that number |
| CameraExceptions.IntToStringRoundTrip | app/src/main/java/com/sicaus/patapov/services/camera/CameraException.kt:25 | a rendered Int reads back as the same Int |
| CameraExceptions.UnknownCodeRecoverable | app/src/main/java/com/sicaus/patapov/services/camera/CameraException.kt:25 | an unknown code's message is the prefix followed by text that parses back to the code |
| CameraExceptions.KnownCodeRecoverable | app/src/main/java/com/sicaus/patapov/services/camera/CameraException.kt:19-25 | a message starts with the unknown-error prefix exactly when the code is not one of the five |
| CameraExceptions.KnownCodesDistinct | app/src/main/java/com/sicaus/patapov/services/camera/CameraException.kt:20-24 | distinct known codes give distinct messages |
| CameraExceptions.Message | app/src/main/java/com/sicaus/patapov/services/camera/CameraException.kt:18-33 | error, security, disconnected and configure failures carry the code message, the prefix plus the cause's message, "Camera immediately disconnected" and the prefix plus the device id |
| CameraExceptions.FromSecurityException | app/src/main/java/com/sicaus/patapov/services/camera/CameraException.kt:28-29 | the security failure cannot open the camera, keeps the cause, and its message is the prefix plus the cause's message |
| CameraExceptions.Hierarchy | app/src/main/java/com/sicaus/patapov/services/camera/CameraException.kt:13-33 | error, security and disconnected failures are CannotOpenCamera exceptions; the configure failure is not |
| CameraModel.MinErrorIndex | app/src/main/java/com/sicaus/patapov/services/camera/CameraImpl.kt:191-194 | the chosen size has the least score, and every earlier size scores strictly more (the first minimiser) |
| CameraModel.FindCamera | app/src/main/java/com/sicaus/patapov/services/camera/CameraImpl.kt:158-207 | the search fails, with NoMatchingCameraException carrying the criteria, exactly when no camera qualifies; otherwise it describes the first qualifying camera in list order |
| CameraModel.FindCameraSkips | app/src/main/java/com/sicaus/patapov/services/camera/CameraImpl.kt:164-197 | skipping a prefix of rejected cameras does not change the search's answer |
| CameraModel.Outputs | app/src/main/java/com/sicaus/patapov/services/camera/CameraImpl.kt:282-287 | one output configuration per target, in order, each for the video-call use case |
| CameraModel.OpenFailure | app/src/main/java/com/sicaus/patapov/services/camera/CameraImpl.kt:254-276 | only an opened device is not a failure; disconnected, error(code) and security outcomes map to their exceptions |
| CameraModel.DescribeSelected | app/src/main/java/com/sicaus/patapov/services/camera/CameraImpl.kt:210-215 | describing succeeds exactly when a camera is selected, and fails with NoCameraSelectedException otherwise |
| CameraModel.SelectThenDescribe | app/src/main/java/com/sicaus/patapov/services/camera/CameraImpl.kt:128-137 | after a successful select the state is standby on the returned description, describing returns it, and targets and lock count are unchanged |
| CameraModel.SelectClosesFirst | app/src/main/java/com/sicaus/patapov/services/camera/CameraImpl.kt:139-156 | selecting from a session closes the session and then the device; a failed search leaves the state unassigned; the lock is released |
| CameraModel.SelectFailsWithoutMatch | app/src/main/java/com/sicaus/patapov/services/camera/CameraImpl.kt:206-207 | with an activity bound, select fails with NoMatchingCameraException(criteria) exactly when no camera qualifies |
| CameraModel.RestartNeedsSelection | app/src/main/java/com/sicaus/patapov/services/camera/CameraImpl.kt:224-231 | restart fails with NoCameraSelectedException exactly when no camera is selected, and then only the lock count changes (up by one) |
| CameraModel.RestartSucceeds | app/src/main/java/com/sicaus/patapov/services/camera/CameraImpl.kt:233-240 | a successful restart is in session with the criteria and description captured at entry, the opened device and configured session, and one output per target; the lock is released |
| CameraModel.RestartLockBalance | app/src/main/java/com/sicaus/patapov/services/camera/CameraImpl.kt:224-242 | restart releases its lock exactly when it succeeds; every failure leaves it held once more |
| CameraModel.RestartClosesTwice | app/src/main/java/com/sicaus/patapov/services/camera/CameraImpl.kt:233-251 | restarting from a session closes its session and device twice, the second time in the re-entrant select |
| CameraModel.RestartOpenOutcomes | app/src/main/java/com/sicaus/patapov/services/camera/CameraImpl.kt:246-301 | each open answer decides the outcome; an error closes the device first; a failed configuration names the device; a failure leaves standby on the re-selected camera |
| CameraModel.RestartWithoutTargets | app/src/main/java/com/sicaus/patapov/services/camera/CameraImpl.kt:224-243 | with no targets, restart still opens the camera and configures a session with no outputs |
| CameraModel.SubscribeKeepsDuplicates | app/src/main/java/com/sicaus/patapov/services/camera/CameraImpl.kt:218-221 | subscribe appends the surface, adding one more copy if it is already a target |
| CameraModel.StopProperties | app/src/main/java/com/sicaus/patapov/services/camera/CameraImpl.kt:306-315 | stop in session closes session then device and drops to standby with the same criteria and description; otherwise nothing changes; targets and lock untouched; idempotent |
| CameraModel.SessionHasTargetsPreserved | app/src/main/java/com/sicaus/patapov/services/camera/CameraImpl.kt:118-315 | select, subscribe, stop and the lifecycle hooks keep "a session has at least one target" |
| CameraService.CameraImpl.constructor | app/src/main/java/com/sicaus/patapov/services/camera/CameraImpl.kt:31-34 | a new service has no targets, no activity, no camera selected, a free lock and an empty log |
| CameraService.CameraImpl.RequiredPermissions | app/src/main/java/com/sicaus/patapov/services/camera/CameraImpl.kt:37-54 | CAMERA then RECORD_AUDIO, then WRITE_EXTERNAL_STORAGE exactly when the SDK is at most P, each paired with its exact reason text |
| CameraService.CameraImpl.OnStart | app/src/main/java/com/sicaus/patapov/services/camera/CameraImpl.kt:118-120 | binds the activity and changes nothing else |
| CameraService.CameraImpl.OnStop | app/src/main/java/com/sicaus/patapov/services/camera/CameraImpl.kt:122-125 | stops, then forgets the activity |
| CameraService.CameraImpl.SelectCamera | app/src/main/java/com/sicaus/patapov/services/camera/CameraImpl.kt:128-137 | result and new state are those of the select step |
| CameraService.CameraImpl.DoSelectCamera | app/src/main/java/com/sicaus/patapov/services/camera/CameraImpl.kt:139-156 | logs the session and device closes, then returns standby on the search result or the search's failure |
| CameraService.CameraImpl.FindCameraAndConfiguration | app/src/main/java/com/sicaus/patapov/services/camera/CameraImpl.kt:158-208 | the loop with `continue` returns the search result: the description of the first qualifying camera, or the failure |
| CameraService.CameraImpl.MinByError | app/src/main/java/com/sicaus/patapov/services/camera/CameraImpl.kt:190-194 | `minByOrNull` is null exactly for a missing or empty size list, and otherwise the first minimiser |
| CameraService.CameraImpl.DescribeSelectedCamera | app/src/main/java/com/sicaus/patapov/services/camera/CameraImpl.kt:210-215 | returns the selected description, or NoCameraSelectedException when none is selected |
| CameraService.CameraImpl.Subscribe | app/src/main/java/com/sicaus/patapov/services/camera/CameraImpl.kt:217-221 | result and new state are those of the subscribe step |
| CameraService.CameraImpl.Restart | app/src/main/java/com/sicaus/patapov/services/camera/CameraImpl.kt:223-243 | result and new state are those of the restart step |
| CameraService.CameraImpl.OpenCameraDevice | app/src/main/java/com/sicaus/patapov/services/camera/CameraImpl.kt:246-277 | result and new state are those of the open step: re-select, log the open, map the answer |
| CameraService.CameraImpl.CreateCameraCaptureSession | app/src/main/java/com/sicaus/patapov/services/camera/CameraImpl.kt:280-304 | logs the session request with one output per target, then the session or the configure failure |
| CameraService.CameraImpl.Stop | app/src/main/java/com/sicaus/patapov/services/camera/CameraImpl.kt:306-315 | new state is that of the stop step |
| Permissions.AllGranted | app/src/main/java/com/sicaus/patapov/utils/RequestPermissions.kt:62-66 | true iff every required permission is granted, so true for none |
| Permissions.MissingExactly | app/src/main/java/com/sicaus/patapov/utils/RequestPermissions.kt:78-79 | a permission is missing iff it is required and its answer is absent or false |
| Permissions.Acknowledge | app/src/main/java/com/sicaus/patapov/utils/RequestPermissions.kt:76-93 | the outcome is true iff every required permission maps to true |
| Permissions.DenialEvents | app/src/main/java/com/sicaus/patapov/utils/RequestPermissions.kt:82-89 | one denial notice, listing the missing permissions, exactly when the outcome is false |
| Permissions.RationaleExactly | app/src/main/java/com/sicaus/patapov/utils/RequestPermissions.kt:68-74 | a rationale is shown for a permission iff it is required and the host flags it |
| Permissions.ShowRationale | app/src/main/java/com/sicaus/patapov/utils/RequestPermissions.kt:68-74 | the loop shows exactly the rationale events of the specification |
| Permissions.Names | app/src/main/java/com/sicaus/patapov/utils/RequestPermissions.kt:47-51 | the launched names are the required permissions' names, in order |
| Permissions.AcknowledgeIgnoresExtraKeys | app/src/main/java/com/sicaus/patapov/utils/RequestPermissions.kt:78-79 | answers that agree on the required permissions give the same outcome and notices |
| Permissions.MissingSameAnswers | app/src/main/java/com/sicaus/patapov/utils/RequestPermissions.kt:78-79 | answers that agree on the required permissions give the same missing list |
| Permissions.PermissionRequest.constructor | app/src/main/java/com/sicaus/patapov/utils/RequestPermissions.kt:36-38 | the grant flag starts as the "all granted" check |
| Permissions.PermissionRequest.Compose | app/src/main/java/com/sicaus/patapov/utils/RequestPermissions.kt:40-59 | with the flag false it shows the rationale first; the action then runs with the current flag during the composition; and only after it, in the side effect, one request for all required permissions is launched |
| Permissions.PermissionRequest.OnPermissionsResult | app/src/main/java/com/sicaus/patapov/utils/RequestPermissions.kt:43-45 | the callback overwrites the flag with the acknowledged outcome and logs its denial notice |
| PermissionProvider.PermissionProviderImpl.constructor | app/src/main/java/com/sicaus/patapov/services/PermissionProviderImpl.kt:16-17 | starts with no activity bound |
| PermissionProvider.PermissionProviderImpl.OnStart | app/src/main/java/com/sicaus/patapov/services/PermissionProviderImpl.kt:19-21 | binds the host |
| PermissionProvider.PermissionProviderImpl.OnStop | app/src/main/java/com/sicaus/patapov/services/PermissionProviderImpl.kt:23-25 | unbinds the host |
| PermissionProvider.PermissionProviderImpl.VerifyPermissions | app/src/main/java/com/sicaus/patapov/services/PermissionProviderImpl.kt:27-49 | result and logged host interactions are those of the verification flow |
| PermissionProvider.PermissionProviderImpl.RequestPermissions | app/src/main/java/com/sicaus/patapov/services/PermissionProviderImpl.kt:65-86 | a non-owner host gives false with no interaction; otherwise register, launch all, acknowledge, unregister |
| PermissionProvider.PermissionProviderImpl.AcknowledgePermissionRequestOutcome | app/src/main/java/com/sicaus/patapov/services/PermissionProviderImpl.kt:88-105 | the outcome is the acknowledged answer and a denial notice is logged iff something is missing |
| PermissionProvider.NoActivityFailsClosed | app/src/main/java/com/sicaus/patapov/services/PermissionProviderImpl.kt:27-31 | with no activity bound the answer is false and nothing is asked |
| PermissionProvider.AlreadyGrantedShortCircuits | app/src/main/java/com/sicaus/patapov/services/PermissionProviderImpl.kt:38-40 | if everything is granted the answer is true with no rationale and no request |
| PermissionProvider.RationaleForFlaggedOnly | app/src/main/java/com/sicaus/patapov/services/PermissionProviderImpl.kt:57-63 | a rationale is shown exactly for the required permissions the host flags |
| PermissionProvider.NonOwnerHostRefused | app/src/main/java/com/sicaus/patapov/services/PermissionProviderImpl.kt:66-68 | a host that is not a result-registry owner yields false after the rationale only |
| PermissionProvider.OneRequestForAll | app/src/main/java/com/sicaus/patapov/services/PermissionProviderImpl.kt:76-83 | exactly one launch, carrying every required permission, between register and unregister, and unregister comes last |
| PermissionProvider.RequestAnswer | app/src/main/java/com/sicaus/patapov/services/PermissionProviderImpl.kt:88-104 | the answer is true iff every required permission maps to true, and a denial listing the missing ones appears iff it is false |
| ControlServiceState.ServiceState.CanStart | app/src/main/java/com/sicaus/patapov/ui/screens/cameracontrol/ServiceState.kt:53-64 | true exactly for STOPPED, REQUESTING_PERMISSION and PERMISSION_GRANTED |
| ControlServiceState.ServiceState.IsRunning | app/src/main/java/com/sicaus/patapov/ui/screens/cameracontrol/ServiceState.kt:69-80 | true exactly for STARTING_UP and RUNNING |
| ControlServiceState.CanStartExcludesRunning | app/src/main/java/com/sicaus/patapov/ui/screens/cameracontrol/ServiceState.kt:53-80 | no state both can start and is running |
| ControlServiceState.NeitherHolds | app/src/main/java/com/sicaus/patapov/ui/screens/cameracontrol/ServiceState.kt:53-80 | neither predicate holds exactly for PERMISSION_NOT_GRANTED, ERROR and STOPPING |
| LegacyServiceState.ServiceState.CanStart | app/src/main/java/com/sicaus/patapov/ui/ServiceState.kt:50-61 | true exactly for PERMISSION_GRANTED, STARTING_UP, RUNNING and STOPPING |
| LegacyServiceState.ServiceState.IsRunning | app/src/main/java/com/sicaus/patapov/ui/ServiceState.kt:63-74 | true exactly for STARTING_UP, RUNNING and STOPPING |
| LegacyServiceState.RunningImpliesCanStart | app/src/main/java/com/sicaus/patapov/ui/ServiceState.kt:50-74 | in this table a running state can always start |
| LegacyServiceState.CanStartOnlyGranted | app/src/main/java/com/sicaus/patapov/ui/ServiceState.kt:50-74 | PERMISSION_GRANTED is the only state that can start without running |
| LegacyServiceState.NeitherHolds | app/src/main/java/com/sicaus/patapov/ui/ServiceState.kt:50-74 | neither predicate holds exactly for STOPPED, REQUESTING_PERMISSION, PERMISSION_NOT_GRANTED and ERROR |
| CameraControlViewModels.CameraControlViewModel.constructor | app/src/main/java/com/sicaus/patapov/ui/screens/cameracontrol/CameraControlViewModel.kt:44-56 | construction shows REQUESTING_PERMISSION with the permission check as the only job |
| CameraControlViewModels.CameraControlViewModel.CompleteVerifyPermissions | app/src/main/java/com/sicaus/patapov/ui/screens/cameracontrol/CameraControlViewModel.kt:56-66 | the check's answer sets PERMISSION_GRANTED or PERMISSION_NOT_GRANTED, keeping the other fields and the invariant |
| CameraControlViewModels.CameraControlViewModel.StartCamera | app/src/main/java/com/sicaus/patapov/ui/screens/cameracontrol/CameraControlViewModel.kt:74-89 | only in PERMISSION_GRANTED: STARTING_UP with the selected camera, or ERROR with the exception and the old selection; otherwise nothing changes |
| CameraControlViewModels.CameraControlViewModel.ActivateCamera | app/src/main/java/com/sicaus/patapov/ui/screens/cameracontrol/CameraControlViewModel.kt:94-96 | only in STARTING_UP, launches a subscription of the surface |
| CameraControlViewModels.CameraControlViewModel.CompleteSubscribe | app/src/main/java/com/sicaus/patapov/ui/screens/cameracontrol/CameraControlViewModel.kt:96-109 | success sets RUNNING, an exception sets ERROR with it; other fields, including an earlier exception, are kept |
| CameraControlViewModels.CameraControlViewModel.DeActivateCamera | app/src/main/java/com/sicaus/patapov/ui/screens/cameracontrol/CameraControlViewModel.kt:116-118 | only in RUNNING, launches an unsubscription of the surface |
| CameraControlViewModels.CameraControlViewModel.CompleteUnsubscribe | app/src/main/java/com/sicaus/patapov/ui/screens/cameracontrol/CameraControlViewModel.kt:118-131 | success sets STARTING_UP, an exception sets ERROR with it |
| CameraControlViewModels.CameraControlViewModel.StopCamera | app/src/main/java/com/sicaus/patapov/ui/screens/cameracontrol/CameraControlViewModel.kt:136-141 | only in RUNNING: STOPPING and a stop job; otherwise nothing changes |
| CameraControlViewModels.CameraControlViewModel.CompleteStop | app/src/main/java/com/sicaus/patapov/ui/screens/cameracontrol/CameraControlViewModel.kt:141-146 | after the stop, PERMISSION_GRANTED; the invariant (a selected camera whenever one is needed, an exception with ERROR) is kept |
| SiCausViewModels.SiCausViewModel.constructor | app/src/main/java/com/sicaus/patapov/ui/SiCausViewModel.kt:40-51 | construction shows REQUESTING_PERMISSION with the permission check as the only job |
| SiCausViewModels.SiCausViewModel.CompleteVerifyPermissions | app/src/main/java/com/sicaus/patapov/ui/SiCausViewModel.kt:51-61 | the answer can only arrive in REQUESTING_PERMISSION and sets PERMISSION_GRANTED or PERMISSION_NOT_GRANTED, leaving nothing in flight |
| SiCausViewModels.SiCausViewModel.StartCamera | app/src/main/java/com/sicaus/patapov/ui/SiCausViewModel.kt:64-69 | only in PERMISSION_GRANTED: STARTING_UP before the subscription is launched; otherwise nothing changes |
| SiCausViewModels.SiCausViewModel.CompleteSubscribe | app/src/main/java/com/sicaus/patapov/ui/SiCausViewModel.kt:69-82 | arrives only in STARTING_UP; success sets RUNNING, an exception sets ERROR with it recorded |
| SiCausViewModels.SiCausViewModel.StopCamera | app/src/main/java/com/sicaus/patapov/ui/SiCausViewModel.kt:86-91 | only in RUNNING: STOPPING and a stop job; otherwise nothing changes |
| SiCausViewModels.SiCausViewModel.CompleteStop | app/src/main/java/com/sicaus/patapov/ui/SiCausViewModel.kt:91-96 | arrives only in STOPPING and sets PERMISSION_GRANTED; at most one job is ever in flight and the state says which |
| PreviewGeometry.DisplayDegrees | app/src/main/java/com/sicaus/patapov/ui/composables/CameraPreviewSurfaceView.kt:80-89 | rotation codes 0 to 3 are 0, 90, 180 and 270 degrees and any other code is 0 (the same table as deviceOrientation in the texture view) |
| PreviewGeometry.KotlinRem | app/src/main/java/com/sicaus/patapov/ui/composables/CameraPreviewSurfaceView.kt:77 | Kotlin's remainder lies strictly between −b and b and takes the sign of the dividend |
| PreviewGeometry.KotlinRemCongruent | app/src/main/java/com/sicaus/patapov/ui/composables/CameraPreviewSurfaceView.kt:77 | the truncating remainder differs from the dividend by a multiple of b, and is zero iff b divides it |
| PreviewGeometry.KotlinRemNegate | app/src/main/java/com/sicaus/patapov/ui/composables/CameraPreviewTextureView.kt:46 | divisibility by 180 ignores the sign |
| PreviewGeometry.MeasureSpecSize | app/src/main/java/com/sicaus/patapov/ui/composables/CameraPreviewSurfaceView.kt:18-19 | the size field is the 30 low bits, in [0, 2^30) and congruent to the spec |
| PreviewGeometry.MeasureSpecRoundTrip | app/src/main/java/com/sicaus/patapov/ui/composables/CameraPreviewSurfaceView.kt:18-19 | getSize recovers the size packed with any of the three modes |
| CameraPreviewSurfaceViews.ComputeRelativeRotation | app/src/main/java/com/sicaus/patapov/ui/composables/CameraPreviewSurfaceView.kt:64-78 | for a non-negative sensor orientation the relative rotation lies in [0, 360) |
| CameraPreviewSurfaceViews.RelativeRotationCongruent | app/src/main/java/com/sicaus/patapov/ui/composables/CameraPreviewSurfaceView.kt:77 | the relative rotation equals sensor minus display orientation modulo 360 |
| CameraPreviewSurfaceViews.RelativeRotationQuarterTurns | app/src/main/java/com/sicaus/patapov/ui/composables/CameraPreviewSurfaceView.kt:64-78 | a quarter-turn sensor gives a quarter-turn relative rotation |
| CameraPreviewSurfaceViews.CameraPreviewSurfaceView.constructor | app/src/main/java/com/sicaus/patapov/ui/composables/CameraPreviewSurfaceView.kt:15 | the view keeps the description and orientation and has no scales yet |
| CameraPreviewSurfaceViews.CameraPreviewSurfaceView.OnMeasure | app/src/main/java/com/sicaus/patapov/ui/composables/CameraPreviewSurfaceView.kt:17-57 | scales change only for a positive output size: x against width and y against height, swapped on a quarter turn; the measured size is always the display size |
| CameraPreviewTextureViews.Rotation | app/src/main/java/com/sicaus/patapov/ui/composables/CameraPreviewTextureView.kt:41-43 | for a quarter-turn sensor the unnormalised rotation lies in [−270, 270] |
| CameraPreviewTextureViews.RotationMayBeNegative | app/src/main/java/com/sicaus/patapov/ui/composables/CameraPreviewTextureView.kt:41-43 | an upright sensor on a display turned a quarter gives −90 |
| CameraPreviewTextureViews.OrientedOutputSize | app/src/main/java/com/sicaus/patapov/ui/composables/CameraPreviewTextureView.kt:46-54 | width and height are swapped iff the rotation is not a multiple of 180; the pair of values is always preserved |
| CameraPreviewTextureViews.SwapIffQuarterApart | app/src/main/java/com/sicaus/patapov/ui/composables/CameraPreviewTextureView.kt:41-54 | the swap happens iff sensor and device orientations differ by an odd number of quarter turns |
| CameraPreviewTextureViews.SwapIgnoresSign | app/src/main/java/com/sicaus/patapov/ui/composables/CameraPreviewTextureView.kt:46-54 | negating the rotation does not change the oriented size |
| CameraPreviewTextureViews.ScaleAspect | app/src/main/java/com/sicaus/patapov/ui/composables/CameraPreviewTextureView.kt:57-62 | the scale aspect of positive sizes is positive |
| CameraPreviewTextureViews.ScaleAspectBelowOne | app/src/main/java/com/sicaus/patapov/ui/composables/CameraPreviewTextureView.kt:57-64 | over exact quotients the branch is decided by integers: the aspect is below one iff width × measured height < height × measured width |
| CameraPreviewTextureViews.CameraPreviewTextureView.constructor | app/src/main/java/com/sicaus/patapov/ui/composables/CameraPreviewTextureView.kt:16-20 | the buffer's fixed size is the description's pixel width and height |
| CameraPreviewTextureViews.CameraPreviewTextureView.OnMeasure | app/src/main/java/com/sicaus/patapov/ui/composables/CameraPreviewTextureView.kt:36-71 | exactly one branch runs; one scale is exactly 1, both lie in (0, 1], and scaleX / scaleY equals the scale aspect |

## Left out

- Floating point. Focal lengths are exact `real`s equal to the float constants. The surface view's scale factors are recorded as the output dimension each axis is divided by: the source divides a display size by it, takes the smaller quotient and inverts.
- CameraPreviewTextureViews.ScaleAspectBelowOne: the texture view's `cameraOutputAspect`, `measuredAspect` and `scaleAspect` are Kotlin `Float` quotients, modelled as exact `real`s. When width × measured height and height × measured width differ by about one part in 10⁷, float32 rounding can turn an aspect just below one into exactly `1f`; the source then takes the `else` branch where this lemma names the `< 1` branch.
- CameraPreviewTextureViews.CameraPreviewTextureView.OnMeasure: its scales are computed over exact `real`s, not float32, so `scaleX / scaleY == aspect` holds exactly only in the model, and in a near-tie (see the line above) the branch the source takes can differ.
- CameraPreviewTextureViews.CameraPreviewTextureView.OnMeasure: requires positive buffer and measured sizes, because with a zero size the source divides by zero in floating point and gets an infinity or NaN scale, which `real` cannot express.
- Integer width. `SizeLimit.error`, the relative-rotation sum and the texture view's rotation are 32-bit `Int` arithmetic. The model uses unbounded integers; SelectionCriteria.ErrorFitsInt32 gives the range in which the score cannot overflow.
- Concurrency. The re-entrant lock is a hold count and waiting is not modelled. The single-thread executor, `suspendCoroutine` and `viewModelScope.launch` become sequential oracle answers. A launched block is a pending job, and its completion is a separate method that may run at any later point.
- `unsubscribe` has no implementation in `CameraImpl`. CameraControlViewModel.CompleteUnsubscribe takes its outcome as a parameter.
- Android platform code is replaced by parameters and ghost logs: CameraManager, the camera device and session, SessionConfiguration, ContextCompat, the activity result registry, `setFixedSize`, `super.onMeasure` and the display rotation.
- The random request key of `requestPermissions` is a parameter.
- Toast and Log output. Only the events matter: rationale shown, denial with the missing permissions, open, close, session. The denial notice's `joinToString` text and the log strings are not modelled.
- `toString` of the criteria, focal-length bands and size limits is not modelled. It only matters for the text of NoMatchingCameraException, whose message is not modelled either.
- NoMatchingCameraException and NoCameraSelectedException are not part of this model's source files. They are camera exceptions carrying the criteria and nothing, as their use shows. The main-screen view model imports a `CameraException` from another package that is not part of this model either; it uses the same exception datatype.
- A null activity in `findCameraAndConfiguration` or `openCameraDevice` makes the cast to CameraManager throw a cast exception, not a camera exception. This is the fault `MissingActivity`. Neither view model catches it, and their StartCamera and completion methods take only camera-exception outcomes.
- The surface view's `orientation` and the texture view's `sizeInPixels`/`orientation` are absent from SelectedCameraDescription. They are constructor parameters.
- Compose rendering, streaming, dependency wiring, preview stubs and the pure interfaces are outside this model's core.

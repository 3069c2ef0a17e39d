/**
 * Permission checks shared by the permission provider and the permission
 * request composable: the required-permission record, the "all granted" test,
 * the rationale notices, and the reading of a permission request's answer.
 */
module Permissions {
  import opened Wrappers

  /** One required permission and the reason it is needed. */
  datatype RequiredPermission = RequiredPermission(permission: string, reason: string)

  /**
   * The activity that hosts permission requests, seen through what the logic
   * asks of it: which permissions it has granted, which ones it wants a
   * rationale shown for, and whether it can register activity-result callbacks.
   */
  datatype Host = Host(granted: set<string>, explain: set<string>, isResultRegistryOwner: bool)

  /** What the logic makes the host do, in order. */
  datatype HostEvent =
    | Rationale(required: RequiredPermission)       // a toast with the permission's reason
    | Register(key: string)                         // an activity-result listener registered under a key
    | Launch(names: seq<string>)                    // one multi-permission request
    | Denied(missing: seq<RequiredPermission>)      // the "Permission request denied" toast
    | Unregister(key: string)
    | Action(granted: bool)                         // the composable's action, run with the grant flag

  /** `all`: every permission is granted; vacuously true for none. */
  function AllGranted(ps: seq<RequiredPermission>, granted: set<string>): (r: bool)
    ensures r <==> forall i :: 0 <= i < |ps| ==> ps[i].permission in granted
    ensures ps == [] ==> r
  {
    if ps == [] then true
    else
      var rest := AllGranted(ps[1..], granted);
      assert forall i :: 1 <= i < |ps| ==> ps[i] == ps[1..][i - 1];
      ps[0].permission in granted && rest
  }

  /** `checkedPermissions[name] == true`: an absent key reads as not granted. */
  predicate GrantedIn(answer: map<string, bool>, name: string) {
    name in answer && answer[name]
  }

  /** The required permissions the answer does not grant, in their original order. */
  function MissingPermissions(ps: seq<RequiredPermission>, answer: map<string, bool>): (r: seq<RequiredPermission>)
    ensures |r| <= |ps|
  {
    if ps == [] then []
    else
      var rest := MissingPermissions(ps[..|ps| - 1], answer);
      if GrantedIn(answer, ps[|ps| - 1].permission) then rest else rest + [ps[|ps| - 1]]
  }

  /** A permission is missing exactly when it is required and the answer does not grant it. */
  lemma {:induction false} MissingExactly(ps: seq<RequiredPermission>, answer: map<string, bool>)
    ensures forall p :: p in MissingPermissions(ps, answer) <==> p in ps && !GrantedIn(answer, p.permission)
  {
    if ps != [] {
      var init, last := ps[..|ps| - 1], ps[|ps| - 1];
      assert ps == init + [last];
      MissingExactly(init, answer);
    }
  }

  /** The outcome of a permission request: true exactly when nothing is missing. */
  function Acknowledge(ps: seq<RequiredPermission>, answer: map<string, bool>): (r: bool)
    ensures r <==> forall i :: 0 <= i < |ps| ==> GrantedIn(answer, ps[i].permission)
  {
    var missing := MissingPermissions(ps, answer);
    MissingExactly(ps, answer);
    assert forall i :: 0 <= i < |ps| && !GrantedIn(answer, ps[i].permission) ==> ps[i] in missing;
    assert |missing| > 0 ==> missing[0] in missing;
    |missing| == 0
  }

  /** The denial toast, shown only when some permission is missing. */
  function DenialEvents(ps: seq<RequiredPermission>, answer: map<string, bool>): (r: seq<HostEvent>)
    ensures |r| <= 1
    ensures r != [] <==> !Acknowledge(ps, answer)
    ensures r != [] ==> r[0] == Denied(MissingPermissions(ps, answer))
  {
    var missing := MissingPermissions(ps, answer);
    if |missing| > 0 then [Denied(missing)] else []
  }

  /** One rationale toast per permission the host flags, in order. */
  function RationaleEvents(ps: seq<RequiredPermission>, explain: set<string>): (r: seq<HostEvent>)
    ensures |r| <= |ps|
  {
    if ps == [] then []
    else
      var last := ps[|ps| - 1];
      RationaleEvents(ps[..|ps| - 1], explain) + (if last.permission in explain then [Rationale(last)] else [])
  }

  /** The rationale toasts are exactly those of the flagged required permissions, and nothing else. */
  lemma {:induction false} RationaleExactly(ps: seq<RequiredPermission>, explain: set<string>)
    ensures forall e :: e in RationaleEvents(ps, explain) ==> e.Rationale?
    ensures forall p :: Rationale(p) in RationaleEvents(ps, explain) <==> p in ps && p.permission in explain
  {
    if ps != [] {
      var init, last := ps[..|ps| - 1], ps[|ps| - 1];
      assert ps == init + [last];
      RationaleExactly(init, explain);
    }
  }

  /** The permission names a request carries: all of the required ones, in order. */
  function Names(ps: seq<RequiredPermission>): (r: seq<string>)
    ensures |r| == |ps|
    ensures forall i :: 0 <= i < |ps| ==> r[i] == ps[i].permission
  {
    seq(|ps|, i requires 0 <= i < |ps| => ps[i].permission)
  }

  /** showRationale: walk the permissions and toast the reason of each one the host flags. */
  method ShowRationale(host: Host, ps: seq<RequiredPermission>) returns (shown: seq<HostEvent>)
    ensures shown == RationaleEvents(ps, host.explain)
  {
    shown := [];
    for i := 0 to |ps|
      invariant shown == RationaleEvents(ps[..i], host.explain)
    {
      assert ps[..i + 1][..i] == ps[..i];
      if ps[i].permission in host.explain {
        shown := shown + [Rationale(ps[i])];
      }
    }
    assert ps[..|ps|] == ps;
  }

  /** The answer is read only at the required names: keys outside them change nothing. */
  lemma AcknowledgeIgnoresExtraKeys(ps: seq<RequiredPermission>, a: map<string, bool>, b: map<string, bool>)
    requires forall i :: 0 <= i < |ps| ==> GrantedIn(a, ps[i].permission) == GrantedIn(b, ps[i].permission)
    ensures Acknowledge(ps, a) == Acknowledge(ps, b)
    ensures DenialEvents(ps, a) == DenialEvents(ps, b)
  {
    MissingSameAnswers(ps, a, b);
  }

  lemma {:induction false} MissingSameAnswers(ps: seq<RequiredPermission>, a: map<string, bool>, b: map<string, bool>)
    requires forall i :: 0 <= i < |ps| ==> GrantedIn(a, ps[i].permission) == GrantedIn(b, ps[i].permission)
    ensures MissingPermissions(ps, a) == MissingPermissions(ps, b)
  {
    if ps != [] {
      MissingSameAnswers(ps[..|ps| - 1], a, b);
    }
  }

  /**
   * The RequestPermissions composable's remembered grant flag, with the
   * launcher callback that overwrites it. Each call of Compose is one
   * composition pass.
   */
  class PermissionRequest {
    const host: Host
    const requiredPermissions: seq<RequiredPermission>
    var permissionGranted: bool
    ghost var events: seq<HostEvent>

    /** The flag starts as the result of the "all granted" check. */
    constructor (host: Host, requiredPermissions: seq<RequiredPermission>)
      ensures this.host == host && this.requiredPermissions == requiredPermissions
      ensures permissionGranted == AllGranted(requiredPermissions, host.granted)
      ensures events == []
    {
      this.host := host;
      this.requiredPermissions := requiredPermissions;
      permissionGranted := AllGranted(requiredPermissions, host.granted);
      events := [];
    }

    /**
     * One composition: while the flag is false, show the rationale; always run
     * the action with the current flag during the composition; and, while the
     * flag is false, launch one request for every required permission in the
     * side effect that runs once the composition has been applied.
     */
    method Compose()
      modifies this`events
      ensures events == old(events)
        + (if permissionGranted then [] else RationaleEvents(requiredPermissions, host.explain))
        + [Action(permissionGranted)]
        + (if permissionGranted then [] else [Launch(Names(requiredPermissions))])
    {
      var names := Names(requiredPermissions);
      if !permissionGranted {
        var shown := ShowRationale(host, requiredPermissions);
        events := events + shown;
      }
      events := events + [Action(permissionGranted)];
      if !permissionGranted {
        // SideEffect { launcher.launch(...) } runs after the composition is applied
        events := events + [Launch(names)];
      }
    }

    /** The launcher callback: the flag becomes the acknowledged outcome of the answer. */
    method OnPermissionsResult(checkedPermissions: map<string, bool>)
      modifies this`permissionGranted, this`events
      ensures permissionGranted == Acknowledge(requiredPermissions, checkedPermissions)
      ensures events == old(events) + DenialEvents(requiredPermissions, checkedPermissions)
    {
      var missing := MissingPermissions(requiredPermissions, checkedPermissions);
      if |missing| > 0 {
        events := events + [Denied(missing)];
      }
      permissionGranted := |missing| == 0;
    }
  }
}

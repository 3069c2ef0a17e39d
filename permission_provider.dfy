/**
 * The permission provider: verifies a service's required permissions against
 * the activity it is bound to, showing rationales and making one request.
 */
module PermissionProvider {
  import opened Wrappers
  import opened Permissions

  /** verifyPermissions' answer, for the bound activity (if any) and the answer the request would get. */
  function VerifyResult(activity: Option<Host>, ps: seq<RequiredPermission>, answer: map<string, bool>): bool {
    if activity.None? then false
    else if AllGranted(ps, activity.value.granted) then true
    else if !activity.value.isResultRegistryOwner then false
    else Acknowledge(ps, answer)
  }

  /** requestPermissions' effect on the host: register, launch once, read the answer, unregister. */
  function RequestEvents(ps: seq<RequiredPermission>, key: string, answer: map<string, bool>): seq<HostEvent> {
    [Register(key), Launch(Names(ps))] + DenialEvents(ps, answer) + [Unregister(key)]
  }

  /** verifyPermissions' effect on the host, in order. */
  function VerifyEvents(activity: Option<Host>, ps: seq<RequiredPermission>, key: string, answer: map<string, bool>): seq<HostEvent> {
    if activity.None? || AllGranted(ps, activity.value.granted) then []
    else
      RationaleEvents(ps, activity.value.explain)
        + (if activity.value.isResultRegistryOwner then RequestEvents(ps, key, answer) else [])
  }

  class PermissionProviderImpl {
    var activity: Option<Host>
    ghost var events: seq<HostEvent>

    constructor ()
      ensures activity == None && events == []
    {
      activity := None;
      events := [];
    }

    method OnStart(host: Host)
      modifies this`activity
      ensures activity == Some(host)
    {
      activity := Some(host);
    }

    method OnStop()
      modifies this`activity
      ensures activity == None
    {
      activity := None;
    }

    /**
     * verifyPermissions. The request key (a random UUID in the source) and the
     * answer the host delivers to the listener are parameters.
     */
    method VerifyPermissions(requiredPermissions: seq<RequiredPermission>, key: string, answer: map<string, bool>)
      returns (granted: bool)
      modifies this`events
      ensures granted == VerifyResult(old(activity), requiredPermissions, answer)
      ensures events == old(events) + VerifyEvents(activity, requiredPermissions, key, answer)
    {
      if activity.None? {
        return false;
      }
      var presentActivity := activity.value;
      if AllGranted(requiredPermissions, presentActivity.granted) {
        return true;
      }
      var shown := ShowRationale(presentActivity, requiredPermissions);
      events := events + shown;
      granted := RequestPermissions(presentActivity, requiredPermissions, key, answer);
      assert events == old(events) + VerifyEvents(activity, requiredPermissions, key, answer);
    }

    /** requestPermissions: fails when the host cannot register result listeners. */
    method RequestPermissions(host: Host, requiredPermissions: seq<RequiredPermission>, key: string, answer: map<string, bool>)
      returns (granted: bool)
      modifies this`events
      ensures granted == (host.isResultRegistryOwner && Acknowledge(requiredPermissions, answer))
      ensures events == old(events) + (if host.isResultRegistryOwner then RequestEvents(requiredPermissions, key, answer) else [])
    {
      if !host.isResultRegistryOwner {
        return false;
      }
      events := events + [Register(key)];
      var names := Names(requiredPermissions);
      events := events + [Launch(names)];
      // The listener fires once with the host's answer.
      granted := AcknowledgePermissionRequestOutcome(requiredPermissions, answer);
      events := events + [Unregister(key)];
    }

    /** acknowledgePermissionRequestOutcome: toast the missing permissions, if any, and report whether none is missing. */
    method AcknowledgePermissionRequestOutcome(requiredPermissions: seq<RequiredPermission>, checkedPermissions: map<string, bool>)
      returns (granted: bool)
      modifies this`events
      ensures granted == Acknowledge(requiredPermissions, checkedPermissions)
      ensures events == old(events) + DenialEvents(requiredPermissions, checkedPermissions)
    {
      var missing := MissingPermissions(requiredPermissions, checkedPermissions);
      if |missing| > 0 {
        events := events + [Denied(missing)];
      }
      granted := |missing| == 0;
    }
  }

  // ---------------------------------------------------------------- properties

  /** With no bound activity the provider fails closed and asks nothing. */
  lemma NoActivityFailsClosed(ps: seq<RequiredPermission>, key: string, answer: map<string, bool>)
    ensures !VerifyResult(None, ps, answer) && VerifyEvents(None, ps, key, answer) == []
  {
  }

  /** When everything is already granted the answer is true, with no rationale and no request. */
  lemma AlreadyGrantedShortCircuits(host: Host, ps: seq<RequiredPermission>, key: string, answer: map<string, bool>)
    requires forall i :: 0 <= i < |ps| ==> ps[i].permission in host.granted
    ensures VerifyResult(Some(host), ps, answer)
    ensures VerifyEvents(Some(host), ps, key, answer) == []
  {
  }

  /** Otherwise a rationale is shown for exactly the permissions the host flags. */
  lemma RationaleForFlaggedOnly(host: Host, ps: seq<RequiredPermission>, key: string, answer: map<string, bool>, p: RequiredPermission)
    requires !AllGranted(ps, host.granted)
    ensures Rationale(p) in VerifyEvents(Some(host), ps, key, answer) <==> p in ps && p.permission in host.explain
  {
    var evs := VerifyEvents(Some(host), ps, key, answer);
    var rs := RationaleEvents(ps, host.explain);
    RationaleExactly(ps, host.explain);
    if host.isResultRegistryOwner {
      var den := DenialEvents(ps, answer);
      var req := [Register(key), Launch(Names(ps))] + den + [Unregister(key)];
      assert evs == rs + req;
      assert Rationale(p) !in den;
      assert Rationale(p) !in req;
      assert Rationale(p) in evs <==> Rationale(p) in rs;
    } else {
      assert evs == rs;
    }
  }

  /** A host that cannot register result listeners gets no request, and the answer is false. */
  lemma NonOwnerHostRefused(host: Host, ps: seq<RequiredPermission>, key: string, answer: map<string, bool>)
    requires !host.isResultRegistryOwner && !AllGranted(ps, host.granted)
    ensures !VerifyResult(Some(host), ps, answer)
    ensures forall e :: e in VerifyEvents(Some(host), ps, key, answer) ==> e.Rationale?
  {
    RationaleExactly(ps, host.explain);
  }

  /**
   * A request, when made, is one launch carrying every required permission
   * (not only the missing ones); the listener is registered before it and
   * unregistered last, after the answer was read.
   */
  lemma OneRequestForAll(host: Host, ps: seq<RequiredPermission>, key: string, answer: map<string, bool>)
    requires host.isResultRegistryOwner && !AllGranted(ps, host.granted)
    ensures var evs := VerifyEvents(Some(host), ps, key, answer);
      var n := |RationaleEvents(ps, host.explain)|;
      && |evs| >= n + 3
      && evs[n] == Register(key)
      && evs[n + 1] == Launch(Names(ps))
      && Names(ps) == seq(|ps|, i requires 0 <= i < |ps| => ps[i].permission)
      && evs[|evs| - 1] == Unregister(key)
      && forall i :: 0 <= i < |evs| && i != n + 1 ==> !evs[i].Launch?
  {
    var evs := VerifyEvents(Some(host), ps, key, answer);
    var rs := RationaleEvents(ps, host.explain);
    var den := DenialEvents(ps, answer);
    assert evs == rs + [Register(key), Launch(Names(ps))] + den + [Unregister(key)];
    RationaleExactly(ps, host.explain);
    forall i | 0 <= i < |evs| && i != |rs| + 1
      ensures !evs[i].Launch?
    {
      if i < |rs| {
        assert rs[i] in rs;
        assert evs[i] == rs[i];
      } else if i == |rs| {
      } else if i < |rs| + 2 + |den| {
        assert evs[i] == den[i - |rs| - 2];
      }
    }
  }

  /**
   * After a request the answer is true exactly when every required permission
   * maps to true: an absent key is a denial, extra keys are ignored; the
   * denial toast appears exactly when the answer is false, listing what is missing.
   */
  lemma RequestAnswer(host: Host, ps: seq<RequiredPermission>, key: string, answer: map<string, bool>)
    requires host.isResultRegistryOwner && !AllGranted(ps, host.granted)
    ensures VerifyResult(Some(host), ps, answer)
            <==> forall i :: 0 <= i < |ps| ==> ps[i].permission in answer && answer[ps[i].permission]
    ensures (exists e :: e in VerifyEvents(Some(host), ps, key, answer) && e.Denied?)
            <==> !VerifyResult(Some(host), ps, answer)
    ensures Denied(MissingPermissions(ps, answer)) in VerifyEvents(Some(host), ps, key, answer)
            <==> |MissingPermissions(ps, answer)| > 0
  {
    var evs := VerifyEvents(Some(host), ps, key, answer);
    var rs := RationaleEvents(ps, host.explain);
    var den := DenialEvents(ps, answer);
    assert evs == rs + [Register(key), Launch(Names(ps))] + den + [Unregister(key)];
    if !Acknowledge(ps, answer) {
      assert den[0] in evs;
    } else {
      assert den == [];
      RationaleExactly(ps, host.explain);
      forall e | e in evs ensures !e.Denied? {
        if e in rs {
        }
      }
    }
  }
}

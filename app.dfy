/** The root component (App.tsx): the sticky `needsUpdate` flag behind the
    update overlay. On mount it registers its update callback with the
    version manager and issues one startup probe `GET /`; the probe settling
    with the "Update required" error sets the flag, and only the registered
    callback clears it. */
module App {
  import opened Js
  import opened ApiService
  import VersionManager

  /** The catch branch of `checkVersion`: does this settlement set the flag? */
  function ProbeRaisesUpdate(r: Result<JsValue>): (raises: bool)
    ensures raises <==> r == Thrown(UpdateRequired)
  {
    match r
    case Ok(_) => false
    case Thrown(message) => message == UpdateRequired
  }

  /** The flag after the probe settles with `outcome`: sticky, and raised only
      by the "Update required" error. */
  function NeedsUpdateAfterProbe(needsUpdate: bool, outcome: FetchOutcome): (after: bool)
    ensures needsUpdate ==> after
    ensures !needsUpdate ==> (after <==> Classify(outcome) == Thrown(UpdateRequired))
  {
    needsUpdate || ProbeRaisesUpdate(Classify(outcome))
  }

  /** Against a server that answers, the probe raises the flag exactly when
      the status is 426; success and every other error leave it as it was. */
  lemma ProbeFlagIffStatus426(needsUpdate: bool, status: int, json: JsValue)
    ensures NeedsUpdateAfterProbe(needsUpdate, Responded(status, json)) == (needsUpdate || status == 426)
  {
    StaleIffStatus426(status, json);
  }

  class App {
    const api: ApiClient
    const versionManager: VersionManager.Manager
    /** The identity of the closure `() => setNeedsUpdate(false)`. */
    const callbackId: VersionManager.CallbackId
    var needsUpdate: bool
    var mounted: bool
    /** Every probe request issued, in order. */
    var probes: seq<HttpRequest>
    var probesInFlight: nat

    constructor (api: ApiClient, versionManager: VersionManager.Manager, callbackId: VersionManager.CallbackId)
      requires versionManager.api == api
      ensures this.api == api && this.versionManager == versionManager && this.callbackId == callbackId
      ensures !needsUpdate && !mounted && probes == [] && probesInFlight == 0
    {
      this.api := api;
      this.versionManager := versionManager;
      this.callbackId := callbackId;
      needsUpdate := false;
      mounted := false;
      probes := [];
      probesInFlight := 0;
    }

    /** The two mount effects: register the update callback, then issue the
        one probe `GET /` (unauthenticated, no body). */
    method Mount() returns (probe: HttpRequest)
      requires !mounted
      modifies this, versionManager
      ensures mounted && needsUpdate == old(needsUpdate)
      ensures versionManager.updateCallback == Some(callbackId)
      ensures versionManager.updateTimerPending == old(versionManager.updateTimerPending)
      ensures probe == RequestFor(api.appVersion, "/", "GET", Undefined, false, false, None)
      ensures probes == old(probes) + [probe] && probesInFlight == old(probesInFlight) + 1
    {
      versionManager.SetUpdateCallback(callbackId);
      mounted := true;
      probe := api.Send("/", "GET", Undefined, false, false, None);
      probes := probes + [probe];
      probesInFlight := probesInFlight + 1;
    }

    /** The probe's `request` settles with `outcome`. */
    method ProbeSettled(outcome: FetchOutcome)
      requires probesInFlight > 0
      modifies this
      ensures needsUpdate == NeedsUpdateAfterProbe(old(needsUpdate), outcome)
      ensures probesInFlight == old(probesInFlight) - 1
      ensures mounted == old(mounted) && probes == old(probes)
    {
      probesInFlight := probesInFlight - 1;
      var r := Classify(outcome);
      if r.Thrown? && r.message == UpdateRequired {
        needsUpdate := true;
      }
    }

    /** The registered callback. */
    method RunUpdateCallback()
      modifies this
      ensures !needsUpdate
      ensures mounted == old(mounted) && probes == old(probes) && probesInFlight == old(probesInFlight)
    {
      needsUpdate := false;
    }

    /** The version manager's timer fires and, if this component's callback is
        the one it holds, that callback runs after the version is updated. */
    method VersionUpdateArrives()
      requires versionManager.api == api
      requires versionManager.updateTimerPending
      modifies this, versionManager, api
      ensures api.appVersion == VersionManager.UpdatedVersion
      ensures !versionManager.updateTimerPending
      ensures old(versionManager.updateCallback) == Some(callbackId) ==> !needsUpdate
      ensures old(versionManager.updateCallback) != Some(callbackId) ==> needsUpdate == old(needsUpdate)
      ensures mounted == old(mounted) && probes == old(probes) && probesInFlight == old(probesInFlight)
    {
      var invoked := versionManager.FireUpdateTimer();
      if invoked == Some(callbackId) {
        RunUpdateCallback();
      }
    }
  }

  /** Start-up order as the source has it: the stale client mounts, its probe
      is answered 426, and the later version update clears the flag again. */
  method StaleThenUpdated(api: ApiClient, versionManager: VersionManager.Manager, id: VersionManager.CallbackId, json: JsValue)
    returns (app: App)
    requires versionManager.api == api && versionManager.updateTimerPending
    modifies api, versionManager
    ensures api.appVersion == VersionManager.UpdatedVersion && !app.needsUpdate
  {
    app := new App(api, versionManager, id);
    var probe := app.Mount();
    assert probe.headers["app-version"] == api.appVersion;
    app.ProbeSettled(Responded(426, json));
    assert app.needsUpdate;
    app.VersionUpdateArrives();
  }
}

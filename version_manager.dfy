/** The out-of-band version-update signal (VersionManager.ts): a single
    object that, 5000 ms after it is constructed, declares version "1.2.0" on
    the request service and then invokes the one update callback registered
    with it, if any. Closures are not values here: a registered callback is
    known by its `CallbackId`, and firing the timer reports which callback
    it invoked so that the registrant can run it. */
module VersionManager {
  import opened Js
  import ApiService

  const UpdateDelayMs := 5000
  const UpdatedVersion := "1.2.0"

  /** The identity of a registered closure. */
  type CallbackId = nat

  class Manager {
    const api: ApiService.ApiClient
    /** The one-slot callback. */
    var updateCallback: Option<CallbackId>
    /** Whether the constructor's `setTimeout` has yet to fire. */
    var updateTimerPending: bool

    /** Construction schedules the update timer; nothing else ever schedules one. */
    constructor (api: ApiService.ApiClient)
      ensures this.api == api
      ensures updateCallback == None && updateTimerPending
    {
      this.api := api;
      updateCallback := None;
      updateTimerPending := true;
    }

    /** Registering replaces whatever callback was held before. */
    method SetUpdateCallback(callback: CallbackId)
      modifies this
      ensures updateCallback == Some(callback)
      ensures updateTimerPending == old(updateTimerPending)
    {
      updateCallback := Some(callback);
    }

    /** The timer fires (once): the declared version becomes "1.2.0" first,
        then the callback held at that moment, if any, is invoked. */
    method FireUpdateTimer() returns (invoked: Option<CallbackId>)
      requires updateTimerPending
      modifies this, api
      ensures api.appVersion == UpdatedVersion
      ensures invoked == old(updateCallback)
      ensures updateCallback == old(updateCallback) && !updateTimerPending
    {
      updateTimerPending := false;
      api.UpdateAppVersion(UpdatedVersion);
      if updateCallback.Some? {
        invoked := Some(updateCallback.value);
      } else {
        invoked := None;
      }
    }
  }

  /** The module-level slot behind `getInstance`. */
  class ManagerModule {
    const api: ApiService.ApiClient
    var instance: Manager?

    constructor (api: ApiService.ApiClient)
      ensures this.api == api && instance == null
    {
      this.api := api;
      instance := null;
    }

    method GetInstance() returns (m: Manager)
      modifies this
      ensures old(instance) != null ==> m == old(instance)
      ensures old(instance) == null ==> fresh(m) && m.api == api && m.updateCallback == None && m.updateTimerPending
      ensures instance == m
    {
      if instance == null {
        instance := new Manager(api);
      }
      m := instance;
    }
  }
}

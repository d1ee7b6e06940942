/** The `SearchOtp` command as an object: the reducer state `appState` and the
    local store are fields that the effects update in place. The constructor and
    the methods that change state are proved to leave the fields exactly as the
    matching function of `SyncSpec` does; `LoadDataFromCache` changes nothing. */
module SearchOtpCommand {
  import opened SyncSpec

  class SearchOtp<T, A, S> {
    var appState: Phase
    var store: Store<T, A, S>
    var logins: nat
    var logouts: nat

    /** The abstract value of the object. */
    function State(): Sync<T, A, S>
      reads this
    {
      Sync(appState, store, logins, logouts)
    }

    /** `useReducer(appReducer, EMAIL_CHECK)` over the store found at launch. */
    constructor (initialStore: Store<T, A, S>)
      ensures State() == Initial(initialStore)
    {
      appState := EmailCheck;
      store := initialStore;
      logins, logouts := 0, 0;
    }

    /** `dispatch`: the reducer applied to the current phase. */
    method Dispatch(action: Action)
      modifies this`appState
      ensures State() == SyncSpec.Dispatch(old(State()), action)
    {
      appState := AppReducer(appState, action);
    }

    /** `checkEmailUnchanged`, created in phase `rendered`. */
    method CheckEmailUnchanged(rendered: Phase, guard: Guard<T, A, S>)
      modifies this
      ensures State() == EmailCheckStep(old(State()), rendered, guard)
    {
      if rendered != EmailCheck {
        return;
      }
      store := guard.storeAfter;
      if guard.changed {
        logouts := logouts + 1;
        store := guard.storeAfterLogout;
        return;
      }
      Dispatch(EmailCheckSuccess);
    }

    /** `checkDataInCache`, created in phase `rendered`. */
    method CheckDataInCache(
      rendered: Phase, mapOtpServices: (seq<T>, seq<A>) -> seq<S>, storeAfterLogin: Store<T, A, S>)
      modifies this
      ensures State() == CacheCheckStep(old(State()), rendered, mapOtpServices, storeAfterLogin)
    {
      if rendered != CacheCheck {
        return;
      }
      if OtpServicesKey in store {
        Dispatch(CacheCheckSuccess);
        return;
      }

      var services: seq<T> := [];
      var apps: seq<A> := [];
      var isDataPresent := false;
      if ServicesKey in store {
        var response := store[ServicesKey];
        if !response.ServicesResponse? {
          return;  // spreading a missing list throws
        }
        services := services + response.authenticatorTokens;
        isDataPresent := true;
      }
      if AppsKey in store {
        var response := store[AppsKey];
        if !response.AppsResponse? {
          return;  // spreading a missing list throws
        }
        apps := apps + response.apps;
        isDataPresent := true;
      }

      assert ReadLegacy(store) == Legacy(services, apps, isDataPresent);
      if isDataPresent {
        store := store[OtpServicesKey := OtpServices(mapOtpServices(services, apps))];
      }
      if !isDataPresent {
        logins := logins + 1;
        store := storeAfterLogin;
      } else {
        Dispatch(CacheCheckSuccess);
      }
    }

    /** `loadDataFromCache`: past its gate it does nothing; `ran` tells whether
        the gate let it through. */
    method LoadDataFromCache(rendered: Phase) returns (ran: bool)
      ensures ran <==> rendered == Ready
    {
      if rendered != Ready {
        return false;
      }
      ran := true;
    }

    /** One render: the three effects, each created with the phase of this render. */
    method RunEffects(env: Env<T, A, S>)
      modifies this
      ensures State() == RenderPass(old(State()), env)
    {
      var rendered := appState;
      CheckEmailUnchanged(rendered, env.guard);
      CheckDataInCache(rendered, env.mapOtpServices, env.storeAfterLogin);
      var _ := LoadDataFromCache(rendered);
    }

    /** The render gate applied to the current phase. */
    function View(): (v: SyncSpec.View)
      reads this
      ensures v == OtpListContent <==> appState == Ready
    {
      Render(appState)
    }
  }
}

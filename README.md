# OTP search command: startup state machine

This project models the startup sequence of the `SearchOtp` command of the Ente
authenticator extension (`src/search-otp.tsx`) and proves its properties in Dafny.

The command keeps a phase, `appState`, which is one of `EMAIL_CHECK`, `CACHE_CHECK`
and `READY`. The phase changes only through `appReducer` and its two success actions.
Three effects each do their work only in their own phase:

- `checkEmailUnchanged` asks the email guard. If the account email changed, it calls
  `logout` and stops. Otherwise it dispatches `EMAIL_CHECK_SUCCESS`.
- `checkDataInCache` takes a fast path when the unified `OTP_SERVICES_KEY` is cached.
  Otherwise it reads the legacy `SERVICES_KEY` and `APPS_KEY` payloads. If either is
  present, it merges them with `mapOtpServices`, writes the result under
  `OTP_SERVICES_KEY` and dispatches `CACHE_CHECK_SUCCESS`. If neither is present, it
  calls `login` and dispatches nothing.
- `loadDataFromCache` does nothing beyond its gate.

The command renders its OTP list only in `READY`. In every other phase it shows the
"Fetching auth data..." placeholder.

Files:

- `sync_spec.dfy`, module `SyncSpec`: the pure model. It holds the phases, actions and
  reducer, the render gate and the store of keys and payloads. Each effect is a function
  on a `Sync` state (phase, store, login and logout call counts). A render pass runs the
  three effects. A launch (`Startup`) re-runs them while the phase keeps changing.
  `Run` applies any sequence of effect invocations, each completing in the phase it
  was created in. The lemmas about launches and runs
  are also here.
- `search_otp.dfy`, module `SearchOtpCommand`: class `SearchOtp`, whose fields
  `appState` and `store` the effects update in place. The constructor and the methods
  that change state are proved to leave the fields exactly as the matching `SyncSpec`
  function does. `LoadDataFromCache` changes nothing; its result only reports whether
  its gate let it through.

Modelling choices:

- Collaborators whose code is not part of this model are inputs:
  - `removeCachedValuesIfEnteEmailHasBeenChanged` becomes `Guard(changed, storeAfter,
    storeAfterLogout)`: its answer, the store as it leaves it, and the store as
    `logout` leaves it when the email changed.
  - `mapOtpServices` is an arbitrary function argument.
  - `login` and `logout` are counted calls.
  - `login` may leave any store behind (`storeAfterLogin`), and so may `logout`
    (`storeAfterLogout`).
  - `checkIfCached`, `getFromCache` and `addToCache` are membership, lookup and update
    on a `map`.
- An effect gates on the phase of the render that created it (the closure's
  `appState`). `dispatch` applies the reducer to the current phase. So one render
  advances the phase by at most one step (`RenderPass`).
- A legacy key whose value lacks the expected list makes `push(...)` throw. The effect
  then ends with nothing written, dispatched or called (`LegacyRead.Malformed`).
- At module load the store is cleared (line 48). `StartupFromClearedStore` treats this
  as the launch from an empty store.

Consequences of the code as written:

- After `login` nothing is dispatched (lines 111-113), and the effects re-run only when
  `appState` changes. So a launch that reaches `login` stays in `CACHE_CHECK`, whatever
  `login` writes (`StartupNeedsLogin`).
- The store is cleared at module load. So a launch whose email guard adds none of the
  three cache keys never renders content (`StartupFromClearedStore`).

## Model

| member | source | states |
|---|---|---|
| `SyncSpec.AppReducer` | src/search-otp.tsx:30-39 | the reducer never moves a phase back to `EMAIL_CHECK` unless it was already there |
| `SyncSpec.ReducerIgnoresPhase` | src/search-otp.tsx:30-35 | on a success action the result does not depend on the current phase |
| `SyncSpec.ReducerIdentityOnOther` | src/search-otp.tsx:36-37 | any other action leaves the phase unchanged |
| `SyncSpec.ReducerAdvancesFromGate` | src/search-otp.tsx:30-46 | the success action of the effect gated on a phase moves that phase exactly one step forward |
| `SyncSpec.ReducerAloneCanMoveBack` | src/search-otp.tsx:32-33 | without the gates, `EMAIL_CHECK_SUCCESS` in `READY` would move the phase back |
| `SyncSpec.IsRenderingAllowed` | src/search-otp.tsx:43 | membership in `ALLOWED_RENDERING_STATES` holds exactly for `READY` |
| `SyncSpec.Render` | src/search-otp.tsx:134-141 | the OTP list is shown exactly in `READY`; every other phase shows the "Fetching auth data..." placeholder |
| `SyncSpec.ReadLegacy` | src/search-otp.tsx:84-100 | data is present iff a legacy key is; a missing side reads as the empty list; a present side yields its stored list; a value without the expected list aborts |
| `SyncSpec.EmailCheckStep` | src/search-otp.tsx:56-67 | a no-op outside `EMAIL_CHECK`; a changed email calls logout once, keeps the phase and leaves the store as logout leaves it; otherwise exactly `EMAIL_CHECK_SUCCESS` is dispatched over the store the guard leaves |
| `SyncSpec.CacheCheckStep` | src/search-otp.tsx:73-118 | a no-op outside `CACHE_CHECK`; a cached unified list dispatches success with no read, write or login; legacy data writes only `OTP_SERVICES_KEY`, with the merge of both sides, then dispatches success without login; no data calls login once and dispatches nothing; a malformed legacy value changes nothing; logout is never called |
| `SyncSpec.RenderPass` | src/search-otp.tsx:55-132 | one render moves the phase at most one step forward, and a render in `READY` changes nothing |
| `SyncSpec.StartupEmailChanged` | src/search-otp.tsx:56-67 | a changed email ends the launch in `EMAIL_CHECK` after one logout and no login, with the store as logout leaves it |
| `SyncSpec.StartupFastPath` | src/search-otp.tsx:77-81 | a cached unified list reaches `READY` with no write and no login |
| `SyncSpec.StartupMigrates` | src/search-otp.tsx:84-117 | legacy data reaches `READY`, with the merged list written under `OTP_SERVICES_KEY` and no login |
| `SyncSpec.StartupNeedsLogin` | src/search-otp.tsx:103-113 | with no cached data, login is called once and the launch stays in `CACHE_CHECK` whatever login writes |
| `SyncSpec.StartupRendersIff` | src/search-otp.tsx:50-136 | a launch shows content iff the email is unchanged and the cache holds the unified list or well-formed legacy data |
| `SyncSpec.StartupWithoutCacheKeys` | src/search-otp.tsx:50-136 | from a store holding none of the three cache keys, with a guard that adds none, a launch never reaches `READY` |
| `SyncSpec.StartupFromClearedStore` | src/search-otp.tsx:48-136 | from the store cleared at module load, with a guard that adds no cache key, a launch never reaches `READY` and shows the placeholder |
| `SyncSpec.Apply` | src/search-otp.tsx:55-132 | an effect invoked in the current phase moves the phase at most one step forward, calls logout only in `EMAIL_CHECK` and login only in `CACHE_CHECK` |
| `SyncSpec.RunMovesForward` | src/search-otp.tsx:55-132 | along any sequence of effects that complete in the phase they were created in, the phase never moves back |
| `SyncSpec.RunPassesThroughCacheCheck` | src/search-otp.tsx:55-132 | no phase is skipped: a run from `EMAIL_CHECK` to `READY` is in `CACHE_CHECK` after some proper prefix of its effects |
| `SyncSpec.RunReadyIsFinal` | src/search-otp.tsx:55-132 | once `READY`, no effect changes the phase, the store or the call counts |
| `SyncSpec.RunLeavesEmailCheckOnlyIfUnchanged` | src/search-otp.tsx:56-67 | leaving `EMAIL_CHECK` requires an email check that found the email unchanged |
| `SyncSpec.RunCallsOnlyBeforeReady` | src/search-otp.tsx:55-121 | a run that calls logout started in `EMAIL_CHECK`, and a run that calls login did not start in `READY` |
| `SearchOtpCommand.SearchOtp.constructor` | src/search-otp.tsx:51 | the command starts in `EMAIL_CHECK` over the store found at launch |
| `SearchOtpCommand.SearchOtp.Dispatch` | src/search-otp.tsx:51 | the phase field becomes the reducer's result; nothing else changes |
| `SearchOtpCommand.SearchOtp.CheckEmailUnchanged` | src/search-otp.tsx:56-67 | updates the fields exactly as `EmailCheckStep` |
| `SearchOtpCommand.SearchOtp.CheckDataInCache` | src/search-otp.tsx:73-118 | the local list building and flag updates leave the fields exactly as `CacheCheckStep` |
| `SearchOtpCommand.SearchOtp.LoadDataFromCache` | src/search-otp.tsx:124-126 | passes its gate exactly in `READY` and changes nothing |
| `SearchOtpCommand.SearchOtp.RunEffects` | src/search-otp.tsx:55-132 | running the three effects with the render's phase updates the fields exactly as `RenderPass` |
| `SearchOtpCommand.SearchOtp.View` | src/search-otp.tsx:134-141 | the command shows content exactly when its phase field is `READY` |

## Left out

- The React and Raycast UI (`EnteContext`, `useEnteContext`, `Detail`, `OtpList`, the `useState` values) is not modelled. The re-run of effects on a change of `appState` is modelled by `Startup` and `Run`.
- `console.log` calls are not modelled. They have no behaviour.
- The real `LocalStorage` is not modelled. It is I/O; the store is a `map` from keys to payloads.
- The bodies of `removeCachedValuesIfEnteEmailHasBeenChanged`, `login`, `logout`, `mapOtpServices`, `checkIfCached`, `getFromCache` and `addToCache` are not modelled. Their code is not part of this model, so they are inputs or map operations.
- StartupFromClearedStore: assumes the email guard adds none of the three cache keys to the store, because the guard's code is not part of this model.
- The merge properties (one entry per token, app resolution, idempotence) are not modelled. They belong to the body of `mapOtpServices`.
- The clearing of all cached keys on an email change is not modelled. It belongs to the guard's body; the model takes the store the guard leaves.
- `setIsLoggedIn` and `setOtpList`, passed to the guard and to `login`, are not modelled. They change only UI state.
- `checkAtLeastOneValidOtp` (lines 109-110) is not modelled. It validates OTP codes against the clock, and its code is not part of this model.
- Async ordering is not modelled. Effects run one after another, to completion. Rejected promises of collaborators are not modelled, except the throw on a malformed legacy value.
- `src/ente/packages/shared/storage/localStorage/helpers.ts` is not modelled. It holds thin get/set wrappers with no logic of their own.

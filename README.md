# Workable/request middlewares in Dafny

A model of the request library's middleware stack: the base `request`
(fetch with JSON defaults, status check, JSON parsing), `getAbortController`,
and the middlewares `withAbort`, `withBgSync`, `withCache`, `withAuthClient`
and `withShortcuts`. Also modelled: the default export
`withAuthClient(withCache(withBgSync(withAbort(request))))` and the
scenarios of `src/index.test.js`.

Every request function has the type `Request = (url, Args, World) -> Step`
(module `Traces`):

- `Args` is either an omitted options argument or an options map (module `Values`).
- `World` scripts the outside:
  - what fetch answers, in order;
  - what each callback passed in the options does (resolve, reject, hang,
    throw, or return something that is not a promise);
  - what the cache store's `get` decides;
  - whether `window.AbortController` exists;
  - whether a service-worker controller exists;
  - the id of the next abort controller.
- `Step` holds three things:
  - the trace of effects (layer calls, fetches, controllers, timers,
    callback calls, store calls, posted messages);
  - the `Call` the caller gets back: a synchronous throw, or a promise
    outcome plus the `.abort` handle it carries, if any;
  - the world after the call.

Each middleware is one function of the request it wraps:

- `WithAbort.AbortCall`
- `WithBgSync.BgSyncCall`
- `WithCache.CacheCall`
- `WithAuthClient.AuthCall`
- `WithShortcuts.Client`

`Composition.Stack` describes a request function by how it was built, and
`Composition.Run` runs it. The default export is `Composition.DefaultStack`.
The tests' request `withCache(withBgSync(withAbort(defaultExport)))` is
`Scenarios.TestRequest`.

Parts of the code update state in place, and those are modelled as classes:

- `getAbortController`'s controller is `AbortControllers.Controller`: its
  `aborted` field changes under `Abort()`.
- One call of `withAbort`, with its timer, controller and outcome, is
  `WithAbort.Abortable`. Its methods `Fire`, `Resolve`, `Reject` and `Abort`
  are each proved to follow the pure state machine `WithAbort.Next`. The
  lemmas about timers are proved on that state machine.

Promise chains are run to settlement in program order. A promise that never
settles is the outcome `Unsettled`.

## Model

| member | source | states |
|---|---|---|
| Values.Default | src/middlewares/withCache.js:15 | a destructuring default gives the default exactly when the value is undefined, and the value itself otherwise |
| Values.Spread | src/middlewares/withBgSync.js:55 | object spread copies an object's fields; a string gives one key "0", "1", ... per index, holding that character; undefined, null and the other values give nothing |
| Values.SpreadStringExample | src/request.js:44 | spreading `"ab"` as headers gives `{"0": "a", "1": "b"}` |
| Values.DigitsInjective | src/request.js:44 | different indices have different key texts, so a spread string keeps every character |
| Values.WithHeader | src/middlewares/withAuthClient.js:11 | adding one header keeps every other option and every other header, and sets the new one |
| Values.Prop | src/middlewares/withBgSync.js:51 | a property read throws exactly on undefined and null, and reads an object's field otherwise |
| Values.Lower | src/middlewares/withBgSync.js:43 | `toLowerCase` keeps the length and lowers each letter in place |
| Traces.ForwardCounts | src/middlewares/withBgSync.js:41 | a layer calling its inner request adds exactly one call of its own to the inner trace, and no call of another layer, fetch, controller or timer |
| AbortControllers.Controller.constructor | src/getAbortController/index.js:6 | a new controller is not aborted |
| AbortControllers.Controller.Abort | src/getAbortController/index.js:7-14 | abort never throws; it returns undefined without a platform controller, "aborted" when the native abort succeeds and the thrown value when it throws; `signal.aborted` turns true only when the native abort succeeds, and stays undefined on the `{}` stand-in |
| AbortControllers.IndependentPairs | src/getAbortController/index.js:3-18 | two calls give independent pairs: aborting the first never aborts the second's signal |
| BaseRequest.FetchOptions | src/request.js:37-46 | fetch gets the caller's options, with `method` defaulting to GET, and JSON Accept and Content-Type headers that the caller's headers override |
| BaseRequest.FetchOptionsIdempotent | src/request.js:37-46 | applying the defaults twice gives the same options as applying them once |
| BaseRequest.CheckStatus | src/request.js:18-26 | a status passes exactly when it is in 200..299; otherwise an Error is thrown carrying the statusText as message and the response |
| BaseRequest.OutcomeCases | src/request.js:58 | the promise fulfils exactly for a 2xx response, rejects exactly for a fetch failure or another status (the error carrying the response), and never settles only when fetch never answers |
| BaseRequest.MalformedBodyFulfilsUndefined | src/request.js:9 | a 2xx response whose body is not JSON fulfils with undefined and never rejects |
| BaseRequest.OmittedIsEmpty | src/request.js:37 | omitting the options is the same as passing `{}` |
| BaseRequest.FetchesOnce | src/request.js:48-58 | the base request calls fetch exactly once with the defaulted options; its promise has no `.abort` |
| WithAbort.TimeoutOf | src/middlewares/withAbort.js:17 | the timer delay is `timeoutMs`, or 5000 when it is absent or undefined |
| WithAbort.AbortOptions | src/middlewares/withAbort.js:22-25 | the inner request gets the signal plus every option except `timeoutMs`; a caller's own `signal` overrides it |
| WithAbort.OptionsRequired | src/middlewares/withAbort.js:17 | with the options argument omitted, the call throws before any effect |
| WithAbort.ReplayKeepsTimerBudget | src/middlewares/withAbort.js:20 | on any event sequence, the timer fires at most once and only while pending |
| WithAbort.TimerAbortsAtMostOnce | src/middlewares/withAbort.js:20 | whatever happens to a call, its timer aborts the controller at most once |
| WithAbort.NoTimerOnceCleared | src/middlewares/withAbort.js:28 | a cleared timer never fires again, whatever events follow |
| WithAbort.TimeoutAbortsExactlyOnce | src/middlewares/withAbort.js:20 | if the timer fires first, it aborts exactly once and never fires again |
| WithAbort.CallerAbortSilencesTimer | src/middlewares/withAbort.js:32-35 | `.abort()` aborts once more and clears the timer, so the timer never fires after it |
| WithAbort.OutcomeIsFinal | src/middlewares/withAbort.js:27-30 | once settled, no later event (an abort included) changes the outcome |
| WithAbort.SettlementEffects | src/middlewares/withAbort.js:27-30 | success clears the timer and passes the value on; rejection passes on and leaves the timer pending |
| WithAbort.Abortable.Start | src/middlewares/withAbort.js:17-25 | a call starts in the state Started, with its controller, the delay from TimeoutOf and the forwarded options from AbortOptions |
| WithAbort.Abortable.AbortController | src/middlewares/withAbort.js:33 | calling the pair's abort counts one abort and updates the signal as the controller does |
| WithAbort.Abortable.Fire | src/middlewares/withAbort.js:20 | the new state is Next on TimerFires |
| WithAbort.Abortable.Resolve | src/middlewares/withAbort.js:27-30 | the new state is Next on InnerResolves |
| WithAbort.Abortable.Reject | src/middlewares/withAbort.js:27 | the new state is Next on InnerRejects |
| WithAbort.Abortable.Abort | src/middlewares/withAbort.js:32-35 | the new state is Next on CallerAborts |
| WithAbort.AbortCallShape | src/middlewares/withAbort.js:17-38 | one controller and one timer with the next id; one inner call with the signal; the outcome passed through; the timer cleared exactly on success; `.abort` this call's own |
| WithAbort.AbortCallReturns | src/middlewares/withAbort.js:17-38 | when the inner request returns a promise, the whole step of the call: effects, result with `.abort`, world |
| WithAuthClient.AuthParams | src/middlewares/withAuthClient.js:3 | the inner request never sees `authClient` or `withAuthClientError`, and sees every other option unchanged |
| WithAuthClient.Bearer | src/middlewares/withAuthClient.js:11 | the header is `BEARER ` followed by the token's text |
| WithAuthClient.AuthorisedOptions | src/middlewares/withAuthClient.js:9-12 | the authorised request has the bearer Authorization header, every other header and every other option |
| WithAuthClient.NoClientForwards | src/middlewares/withAuthClient.js:5 | without a client, one inner call with the stripped options, whose result comes back unchanged |
| WithAuthClient.TokenAuthorises | src/middlewares/withAuthClient.js:7-13 | for a client with a callable `getTokenSilently`, when the token resolves with an `id_token`, the token is requested, then the authorised request runs once; its outcome is adopted without `.abort` |
| WithAuthClient.TokenAuthorisesCall | src/middlewares/withAuthClient.js:7-13 | as TokenAuthorises (a client with a callable `getTokenSilently`), for the result alone |
| WithAuthClient.NoTokenNoRequest | src/middlewares/withAuthClient.js:7-13 | for a client with a callable `getTokenSilently`, when the token does not resolve to a value with `id_token`, the inner request is never called and the result has no `.abort` |
| WithAuthClient.MissingErrorHandlerThrows | src/middlewares/withAuthClient.js:7 | for a client with a callable `getTokenSilently`, a `withAuthClientError` that is not a function makes the call throw right after the token request |
| WithAuthClient.TokenMethodMissingThrows | src/middlewares/withAuthClient.js:7 | a truthy client without a callable `getTokenSilently` makes the call throw a TypeError synchronously, before any token request or inner call |
| WithAuthClient.TokenMethodMissingExamples | src/middlewares/withAuthClient.js:7 | `authClient: true` and `authClient: {}` both throw that TypeError |
| WithShortcuts.ShortcutOptions | src/middlewares/withShortcuts.js:10-15 | the params' options, with `method` set to the verb and, when data is truthy, `body` set to its JSON text |
| WithShortcuts.Client.Shortcut | src/middlewares/withShortcuts.js:10-15 | a shortcut is one call of the request with ShortcutOptions; it returns that call's result and leaves the world as that call does |
| WithShortcuts.CallIsRequest | src/middlewares/withShortcuts.js:26 | the request with shortcuts, called directly, is the request itself |
| WithShortcuts.ShortcutsSetVerb | src/middlewares/withShortcuts.js:17-24 | post, put, patch and del each issue one call whose method is their verb, whatever the params say |
| WithShortcuts.DelKeepsParamsBody | src/middlewares/withShortcuts.js:24 | `del` sets no body: a body arrives exactly when the params had one |
| WithShortcuts.BodyFromData | src/middlewares/withShortcuts.js:14 | truthy data replaces the body with its JSON text; falsy data leaves the params' body alone |
| WithCache.MakeKeyInjective | src/middlewares/withCache.js:11 | within one store, two keys whose texts differ never share a store entry |
| WithCache.StoreName | src/middlewares/withCache.js:15 | the store is `cacheStore`, or the generic store when `cacheStore` is undefined |
| WithCache.Stripped | src/middlewares/withCache.js:15 | the inner request sees every option except the four cache options |
| WithCache.BypassForwards | src/middlewares/withCache.js:25 | not engaged: one inner call with the stripped options; result unchanged; no store call |
| WithCache.HitSkipsRequest | src/middlewares/withCache.js:19-23 | engaged, and the store answers itself: the store is opened and read once; the request is never performed; the result has no `.abort` |
| WithCache.MissRunsRequest | src/middlewares/withCache.js:17-23 | engaged, and the store calls the fetch thunk: one inner call after the store calls; its outcome is adopted without `.abort` |
| WithCache.StoreKeyChoice | src/middlewares/withCache.js:19-23 | the store opened and read is StoreName; the key uses cacheKey or url; the max age is `cacheAge` as given |
| WithCache.NoGenericStoreNeedsOption | src/index.js:10 | with no generic store, as in the default export, caching needs both `cache` and `cacheStore` truthy |
| WithBgSync.NotSupportedMentions | src/middlewares/withBgSync.js:44-46 | the unsupported-method error quotes the method and says "not supported" |
| WithBgSync.MethodCheck | src/middlewares/withBgSync.js:43-46 | the check passes exactly for a string method whose lower case is post, delete or put; a non-string, non-nullish method throws a TypeError |
| WithBgSync.PostSupported | src/middlewares/withBgSync.js:43 | POST passes the check |
| WithBgSync.MethodCheckExamples | src/middlewares/withBgSync.js:35 | POST, Put and delete pass; GET, PATCH and a missing method fail |
| WithBgSync.Params | src/middlewares/withBgSync.js:39 | the inner request never sees `bgSync` or `bgSyncOptimistic`, and sees every other option unchanged |
| WithBgSync.RetryOptions | src/middlewares/withBgSync.js:55 | the retry has a `bgSync: "1"` header, every other header and every other option |
| WithBgSync.RemoveBgSynced | src/middlewares/withBgSync.js:26-31 | with a service-worker controller, exactly `{type: "removeBgSynced", url, method}` is posted; without one, nothing is posted and the chain rejects |
| WithBgSync.PassesThroughWithoutCallback | src/middlewares/withBgSync.js:41 | without a callback, one inner call with the stripped options; result unchanged |
| WithBgSync.UnsupportedMethodThrows | src/middlewares/withBgSync.js:43-46 | with a callback and an unsupported method, the call throws before any effect; for a string or missing method the error says "not supported" |
| WithBgSync.FirstCallKeepsAbort | src/middlewares/withBgSync.js:48-72 | the first inner call is issued with the stripped options; its throw propagates; its `.abort` is the result's |
| WithBgSync.OnlineResponsePassedOn | src/middlewares/withBgSync.js:50-51 | a first response that is not "offline", or a rejection, is returned unchanged and nothing else happens |
| WithBgSync.AfterRetryShape | src/middlewares/withBgSync.js:58-62 | after the retry, nothing happens unless it reports "bgSynced"; then at most the callback and the removal message |
| WithBgSync.OptimisticOfflineSentinel | src/middlewares/withBgSync.js:57-67 | optimistic and offline: exactly one marked retry follows, and this layer issues no other call; after a retry that does not report "bgSynced" nothing else happens and the caller gets the sentinel (nothing, if the retry hangs); otherwise at most the callback and the removal message follow; only a synchronous throw of the retry rejects |
| WithBgSync.OptimisticNotSyncedSkipsCallback | src/middlewares/withBgSync.js:58-59 | optimistic: a retry that does not report "bgSynced" ends the chain; the callback is never called; whole step stated |
| WithBgSync.OptimisticSyncedCallsCallback | src/middlewares/withBgSync.js:57-62 | optimistic, "bgSynced": the callback is called once after the retry; the removal message is posted exactly when it resolves and a service worker exists; the sentinel |
| WithBgSync.OptimisticSyncedHandler | src/middlewares/withBgSync.js:50-68 | the optimistic handler of an offline response whose retry reports "bgSynced", stated as one tail |
| WithBgSync.SyncedRetryCallsBack | src/middlewares/withBgSync.js:58-62 | after "bgSynced", the callback is called once, then the removal message is posted when the callback resolves |
| WithBgSync.PessimisticRejectedNoRetry | src/middlewares/withBgSync.js:64-67 | pessimistic: the callback is called first; if it rejects or never settles, no retry is sent; the sentinel, or nothing if it never settles |
| WithBgSync.PessimisticResolvedRetries | src/middlewares/withBgSync.js:64-67 | pessimistic: if the callback resolves, exactly one marked retry follows it; the sentinel unless the retry hangs |
| WithBgSync.PessimisticSyncFailureRejects | src/middlewares/withBgSync.js:64 | pessimistic: a callback that throws or returns a non-promise makes the caller's promise reject, and no retry is sent |
| Composition.BuildIsWrapping | src/index.js:10 | each description layer behaves as that middleware's wrapper around the request the rest describes |
| Composition.AbortableBase | src/middlewares/withAbort.js:17-38 | withAbort(request): one controller and one timer with the next id; one fetch; the fetch outcome; its own `.abort`; the timer pending exactly when the fetch did not succeed |
| Composition.AbortableTrace | src/middlewares/withAbort.js:17-38 | the full trace of withAbort(request) |
| Composition.AbortableWorld | src/middlewares/withAbort.js:18 | withAbort(request) consumes one fetch reply and one controller id and nothing else |
| Composition.AbortTraceCounts | src/middlewares/withAbort.js:18-34 | withAbort(request)'s trace makes one controller, one timer, one fetch, no bgSync call, and leaves the timer pending exactly without the clear |
| Composition.NumberedAppend | src/middlewares/withBgSync.js:48-55 | consecutive numbering of controllers is kept when traces are joined |
| Composition.OnResponseNumbered | src/middlewares/withBgSync.js:50-68 | the offline handler makes one new controller and timer per retry it sends, and none otherwise |
| Composition.EveryCallGetsItsOwnController | src/middlewares/withBgSync.js:48-55 | in withBgSync(withAbort(request)), every call withBgSync issues (first and retry) gets its own controller and timer, numbered in call order, and no others are made |
| Composition.LayerOrder | src/index.js:10 | without options, the default export passes through auth, cache, bgSync and abort in that order, then fetches once |
| Composition.DefaultOmitted | src/index.js:10 | without options, auth, cache and bgSync each hand `{}` on |
| Composition.PlainParams | src/index.js:10 | what reaches withAbort is the caller's options without the auth, bgSync and cache keys |
| Composition.PlainDefault | src/index.js:10 | asking for no auth, cache or bgSync, the default export is a pass-through to withAbort(request) |
| Composition.BgSyncOverForwards | src/middlewares/withBgSync.js:41 | withBgSync without a callback, around any stack, is one forwarding call |
| Composition.BgSyncOverThrows | src/middlewares/withBgSync.js:43-46 | withBgSync with an unsupported method, around any stack, throws with no effect |
| Composition.AuthOverForwards | src/middlewares/withAuthClient.js:5 | withAuthClient without a client, around any stack, is one forwarding call |
| Composition.CacheOverForwards | src/middlewares/withCache.js:25 | withCache not engaged, around any stack, is one forwarding call |
| Composition.AuthKeepsOptions | src/middlewares/withAuthClient.js:3-11 | the options past auth keep every caller option other than headers and the auth keys |
| Composition.AbortSurvivesPlainStack | src/index.js:10 | without authClient and caching, the composed result carries the `.abort` of the first controller of the call |
| Composition.SyncedKeepsAbort | src/middlewares/withBgSync.js:70 | withBgSync(withAbort(request)) returns the first controller's `.abort` whenever it returns |
| Composition.KeepsAbortOf | src/middlewares/withBgSync.js:70 | withBgSync keeps the `.abort` of its first call's promise, over any inner request |
| Composition.AbortLostBehindAuthOrCache | src/index.js:10 | with an authClient or with caching engaged, the composed result never carries `.abort` |
| Composition.SyncedSeesCallerOptions | src/index.js:10 | withBgSync in the default export sees the caller's method and callback, with or without authorisation |
| Composition.MethodErrorThrownWithoutAuth | src/middlewares/withBgSync.js:43-46 | an unsupported bgSync method, without auth or cache, makes the default export throw synchronously |
| Composition.MethodErrorRejectedWithAuth | src/middlewares/withAuthClient.js:7-13 | the same request with an authClient that has a callable `getTokenSilently` and whose token arrives instead returns a promise that rejects with that error |
| Composition.CachedSyncedEngaged | src/middlewares/withCache.js:17-23 | with caching engaged and an unsupported bgSync method, a store hit returns the stored outcome with no error, and a store that runs the thunk rejects with the method error |
| Composition.MethodErrorUnderCache | src/index.js:10 | in the default export without an authClient, engaged caching means an unsupported bgSync method never throws: it is hidden by a store hit or becomes a rejection |
| Composition.CachedSyncedThrows | src/middlewares/withCache.js:17-25 | withCache(withBgSync(withAbort(request))), not engaged, with an unsupported method, throws |
| Scenarios.ObservedAbortable | src/index.test.js:42 | what a test sees of withAbort(request) is its single fetch |
| Scenarios.AuthPassesOn | src/middlewares/withAuthClient.js:5 | without authClient, the auth layer cannot be told apart from the stack below it |
| Scenarios.CachePassesOn | src/middlewares/withCache.js:25 | not engaged, the cache layer cannot be told apart from the stack below it |
| Scenarios.BgSyncPassesOn | src/middlewares/withBgSync.js:41 | without a callback, the bgSync layer cannot be told apart from the stack below it |
| Scenarios.AbortOverStack | src/middlewares/withAbort.js:22-37 | withAbort over any stack keeps what a test sees, the outcome and the world, and puts on its own `.abort` |
| Scenarios.DefaultRun | src/index.js:10 | on plain options, the default export performs one fetch and returns the fetch outcome with its own controller's `.abort` |
| Scenarios.TestAbortableRun | src/index.test.js:4 | withAbort(defaultExport) on plain options makes two controllers and one fetch, and returns the outer `.abort` |
| Scenarios.MarkOnlyOnRetry | src/index.test.js:216 | `fetch.mock.calls[k][1].headers.bgSync` is "1" for the marked retry and absent on the first call |
| Scenarios.TestRequestOmitted | src/index.test.js:4 | `request("mockUrl")` on the tests' stack: one fetch with `{}` plus two signals and JSON defaults; the outer `.abort` |
| Scenarios.SubmitsRequest | src/index.test.js:44-50 | "submits a request": resolves to "12345"; after success a firing timer aborts nothing |
| Scenarios.AbortsRequest | src/index.test.js:52-63 | "aborts a request": the result has `.abort`; calling it aborts once and clears the timer; the promise never resolves |
| Scenarios.DoesNotCache | src/index.test.js:73-79 | "doesn't cache a request": no store call; one fetch |
| Scenarios.CacheHitSeen | src/index.test.js:81-136 | for the tests' cache options, makeIDB("test-store") once and get once under `test-store.<cacheKey or url>` with the given cacheAge; nothing fetched |
| Scenarios.CachesOnKey | src/index.test.js:81-98 | "caches a request on key": get("test-store.test") |
| Scenarios.CachesWithMaxAge | src/index.test.js:100-118 | "caches a request with max age": get("test-store.mockUrl", maxAge 10) |
| Scenarios.CachesWithDefaults | src/index.test.js:120-136 | "caches a request with default values": get("test-store.mockUrl", maxAge undefined) |
| Scenarios.BypassesBgSync | src/index.test.js:139-144 | "bypasses bgSync request": resolves to "12345" |
| Scenarios.OnlineOver | src/middlewares/withBgSync.js:50-51 | over any stack, a first response that is not offline is what the caller sees |
| Scenarios.OnlineNotSynced | src/index.test.js:146-158 | "should not bgSync a request when online": "12345", one fetch, callback never called |
| Scenarios.GetNotSupported | src/index.test.js:160-165 | "should not bgSync a request on GET method": a synchronous throw that says "not supported", nothing fetched |
| Scenarios.OptimisticNotSyncedOver | src/middlewares/withBgSync.js:57-67 | over any stack, optimistic with a retry that is not "bgSynced": both fetches, no callback, the sentinel |
| Scenarios.OptimisticSyncedOver | src/middlewares/withBgSync.js:57-67 | over any stack, optimistic with a "bgSynced" retry: both fetches, the callback once, the message exactly when it resolves, the sentinel |
| Scenarios.PessimisticRejectedOver | src/middlewares/withBgSync.js:64-67 | over any stack, pessimistic with a rejecting callback: one fetch, the callback, the sentinel |
| Scenarios.PessimisticResolvedOver | src/middlewares/withBgSync.js:64-67 | over any stack, pessimistic with a resolving callback: the fetch, the callback, the marked retry, the sentinel |
| Scenarios.OptimisticRetryNotSynced | src/index.test.js:177-196 | "should not bgSync if the request fail": the sentinel, two fetches, no callback, no message |
| Scenarios.OptimisticSynced | src/index.test.js:198-218 | "should bgSync a request": the sentinel, two fetches of which only the second is marked, the callback once, no message |
| Scenarios.OptimisticSyncedRemoved | src/index.test.js:220-243 | "should prevent the bgSync a request": the sentinel, two fetches, the callback once, `{type: "removeBgSynced", url: "mockUrl", method: "POST"}` posted |
| Scenarios.PessimisticConfirmed | src/index.test.js:247-265 | "should bgSync a request when user confirm": the sentinel, the callback, two fetches, the second marked |
| Scenarios.PessimisticDeclined | src/index.test.js:267-284 | "should prevent the bgSync when user does not confirm": the sentinel, the callback, one fetch |

## Behaviour of the code worth knowing

The model follows the code in each case below; some of it is easy to miss
when reading the doc comments alone.

- **`.abort` is lost behind some layers.** withAbort's doc comment
  (src/middlewares/withAbort.js:4-9) shows `promise.abort()` on the
  promise it returns. In the default export, `withCache` (when caching)
  and `withAuthClient` (with a client) return a new promise without it;
  `withBgSync` keeps it (src/middlewares/withBgSync.js:70). See `Composition.AbortLostBehindAuthOrCache` and
  `Composition.AbortSurvivesPlainStack`.
- **The timer is not cleared on rejection.** `withAbort` clears its timer
  only on success. After a rejection the timer stays pending and later
  aborts a finished request. See `WithAbort.SettlementEffects` and
  `Composition.AbortableBase`.
- **The offline path does not always give the sentinel.**
  `action.catch(noop).then(offlineResponse)` (src/middlewares/withBgSync.js:67)
  turns every rejection of the action's promise into the sentinel, but
  not a throw while the action is built. So a pessimistic callback that throws or returns something that is not a
  promise rejects the caller's promise
  (`WithBgSync.PessimisticSyncFailureRejects`). So does an optimistic
  retry that throws synchronously (`WithBgSync.OptimisticOfflineSentinel`).
- **Configuration errors are not always synchronous.** An unsupported bgSync
  method throws synchronously only when neither an authClient nor caching
  is engaged (`Composition.MethodErrorThrownWithoutAuth`).
  - Under an authClient with a callable `getTokenSilently`, the check runs
    inside `.then`, and the error becomes a rejection
    (`Composition.MethodErrorRejectedWithAuth`). A truthy authClient
    without that method throws its own TypeError synchronously instead
    (`WithAuthClient.TokenMethodMissingThrows`).
  - With caching engaged, the store decides: a store that answers by
    itself returns its value and the error never arises. A store that
    calls the fetch thunk gives a rejection, provided that `get` calls the
    thunk inside its own promise chain, as the model assumes (see the
    `@workablehr/idb` line under "Left out")
    (`Composition.CachedSyncedEngaged`, `Composition.MethodErrorUnderCache`).
- **`withAbort` needs an options object.** It has no `= {}` default, so
  calling it with the options omitted throws (`WithAbort.OptionsRequired`).
  In the default export the outer layers always pass an object.
- **The caller's `signal` wins.** `withAbort` spreads the caller's options
  after its own `signal`, so a `signal` passed by the caller replaces
  withAbort's (`WithAbort.AbortOptions`).
- **An unparseable body gives undefined.** The `.json()` failure is
  swallowed into undefined. `withBgSync` then reads `.statusText` of
  undefined, and its promise rejects with a TypeError.
- **The default export has no generic store.** `withCache` gets no
  genericCacheStore there, so caching needs an explicit `cacheStore`
  (`WithCache.NoGenericStoreNeedsOption`).
- **The tests stack the middlewares twice.** Their request wraps the default
  export again, which gives eight layers and two `withAbort`. The `.abort`
  the caller gets is the outer `withAbort`'s, and fetch receives the outer
  signal (`Scenarios.TestAbortableRun`).

## Left out

- `XHRHandler.init` (src/request.js:23): `xhrHandler.js` is not part of this model. The error carries the response and no `asyncHandler`.
- The test-only `NODE_ENV === "test"` guard in src/request.js:51-56 is left out: it fires only when fetch is unmocked.
- JSON text: `JSON.stringify(data)` is the opaque value `Json(data)`, and fetch bodies are scripted as parsed values or `Malformed`. No JSON grammar is modelled.
- `toLowerCase` is modelled on ASCII letters only.
- Values.Spread: spreading the JSON text `Json(data)` gives nothing rather than its characters, because the text is opaque; spreading an Error gives nothing rather than its own `response` and `asyncHandler` properties. Callers are not expected to pass either as options or headers.
- Error messages of TypeErrors are stand-in texts. Only their kind and that they reject or throw are modelled.
- `@workablehr/idb` internals: the store's `get` is scripted. It either answers by itself or calls the fetch thunk, and its cache policy and `maxAge` handling are outside this model. When it calls the thunk, `get` is assumed to do so inside its own promise chain and to settle as the thunk's promise does, so a synchronous throw of the thunk becomes a rejection of `get`'s promise rather than escaping `get`; the library's code is not part of this model.
- Options arguments that are neither omitted nor an object: `Args` is either omitted or an options object, so `request(url, null)` (whose destructuring throws a TypeError in the outermost layer, since a `= {}` default only replaces undefined) and primitive options values are not modelled. Omitted options are, including withAbort's throw on them (`WithAbort.OptionsRequired`).
- Real time and the event loop: timers never fire during a run. Timer firing, late settlement and caller aborts are events of `WithAbort.Next`, with no interleaving of several calls.
- `.abort` cancelling the fetch: the platform's handling of the signal is not modelled. In the "aborts a request" scenario the mocked abort also cancels the mocked response, which the model scripts as a fetch that never answers.
- `getAbortController` is mocked in src/index.test.js (a `{}` signal). The scenarios run the model's own controller without a platform `AbortController`, which gives the same `{}` signal.
- `withShortcuts` adds the verbs as properties of the request function object, mutating it. The model returns a `Client` value holding the request, so the aliasing of that mutation is not captured.
- `getTokenSilently` is opaque: whether it is a function is modelled, but a callable one is taken not to throw synchronously, and the token promise is what the scripted `withAuthClientError` answer makes of it.
- `navigator.serviceWorker` without a `controller`, and `postMessage` itself, are reduced to a flag of the world and a `Posted` effect.
- Numbers are integers; NaN and non-integer `cacheAge` or `timeoutMs` values are not modelled.

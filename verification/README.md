# Verified models of the starter's concurrent and canonicalising core

The repository is a TypeScript starter (NestJS API, React web client, shared packages). Most of it is plumbing; its hard
logic sits in a few small protocols and in some pure code that decides or canonicalises. This project models those
parts in Dafny and proves what they are for.

- **Idempotency leases** (`IdempotencyProtocol`, `IdempotencySafety`, `IdempotencyRetry`, `IdempotencyStore`): any
  number of requests share one Redis cell. Each command is two steps (Redis runs it, the reply arrives), each leg of
  the network may fail, time and TTL expiry interleave freely. `IdempotencySafety` says who may run and what stays
  stored, `IdempotencyRetry` what a retry is answered. `IdempotencyStore` holds the code as it is written,
  straight-line methods with awaits, and proves that every interleaving of it is a run of the step machine.
- **Request identity** (`StableSerialize`, `RequestFingerprint`): the canonical text of JSON values and the fingerprint
  built from it.
- **Client sessions** (`SessionProtocol`, `SessionSafety`, `SessionTheorems`, `SessionClient`, `SessionBootstrap`):
  single-flight token refresh, the microtask burst in which all waiting requests wake, replay of REST and oRPC requests,
  superseded responses, and the bootstrap check. Logins, logouts and tenant switches may fall between any two steps.
- **Caches and limiters** (`DistributedCache`, `CacheInvalidation`, `CacheLoads`, `Bulkhead`).
- **Transaction scopes** (`TransactionScopes`): two copies of the tenant scope, nesting, savepoints, SQL errors,
  after-commit callbacks.
- **Authorization** (`Authorization`): ordered policy loops against an order-free rule, the relation between permissions,
  and the role tables.
- **Upload polling** (`UploadPolling`), **project plan** (`ProjectPlan`) and **env text** (`EnvText`).
- `Common` holds the option type and two facts about finite sets.

Code that changes state step by step is a class whose methods are proved equal to pure step functions; the theorems are
about those functions and about whole runs of them.

## What turned out not to hold

Each of these is stated as an exact condition or as an exhibited run; the code is modelled as it is.

- A retried claim that finds no ready Redis client returns `undefined`, which the interceptor reads as a granted claim,
  so a handler can run with no lease beside a fresh one (`LostClientRunsUnclaimed`, exactly then: `UnclaimedStartIff`).
  A handler whose claim reply takes longer than the stale age overlaps its successor (`LateReplyOverlaps`).
  `HandlerStartsAloneIff` and `CompanyAtStartIff` give the exact guards.
- A number too large for a double is parsed to an infinity, which prints as null: the bodies `{"n":1e400}` and
  `{"n":null}` share a fingerprint, and one can be answered with the stored response of the other
  (`OverflowSharesFingerprint`; `FingerprintDecidesSameRequest` gives the exact relation).
- A client that does not configure `getAuthIdentity` can have its account replaced by a refresh
  (`RefreshKeepsAccountIff`, `ReplaysStayInAccountIff`). A REST body is read after its scope check, so it is returned
  into another account or tenant when a switch falls between headers and body (`LateBodyIsHandedOver`, exactly then:
  `HandoverInScopeIff`). An oRPC replay rebuilds its tenant header after an await (`OrpcReplayKeepsTenantIff`,
  `OrpcReplayCanCrossTenants`). A REST request whose first response was discarded is refreshed and sent again all the
  same when its account and tenant come back before the discard has finished (`DiscardedFirstReadsIff`,
  `SwitchBackReplays`).
- When obtaining the client throws at once, `verifySession` keeps a settled promise for good (`PinsIff`, `PinnedForever`).
- The local cache forgets live entries exactly by evicting the oldest key of a map that a sweep left full
  (`MissedIffEvicted`). It has no bound once the empty string is its oldest live key: nothing is evicted any more
  (`SetExceedsBoundIff`, `EmptyOldestKeyGrows`, `NoBoundWithEmptyKey`). An entry whose key was broadcast after the entry
  was set and before the invalidation handler was registered stays stale, and no other does (`DeliveredMeansFreshIff`,
  `EarlyEntryCanBeStale`).
- An SQL error inside a tenant scope, absorbed by a savepoint around it, rolls the settings back and leaves CLS on the
  inner tenant (`RolledBackScopeLeavesCls`); a query that follows runs with the two copies on different tenants
  (`QuerySeesDisagreement`; `QueriesSeeInnermostIff` decides it for every nest). The next tenant scope takes that for
  the outer tenant and, at its end, moves the transaction settings there too, so that both copies agree on a tenant
  nobody entered at that level (`NextScopeAdoptsTheLeak`). An enclosing scope repairs it (`OuterScopeRepairs`).
  `SettingsSurviveSqlErrors` decides what is left for every nest. An SQL error swallowed without a savepoint lets
  after-commit callbacks run although nothing was committed (`CallbacksWithoutCommitIff`).
- A write that fails after it has changed its file is undone only if an earlier step of the plan wrote the same file
  (`AllOrNothingIff`).
- `setEnvValue` expands replacement patterns in a value when the key is present (`PatternIsExpanded`). A value with a
  line terminator is not idempotent to set (`SetIsIdempotent`), and where one of its further lines sets another key that
  has no earlier line in the text, that key reads as the injected value (`SetThenGetOther`, `TerminatorInjects`).
- Two loads of one key may run at a time, but only behind one that started while 1,000 others were registered
  (`OneLoadPerKey`, `MissStartsLoadIff`).
- Polling with a start interval of zero or less need not end on a platform whose timers may be instantaneous (`EndsIff`).
- `docs/PRODUCTION_ARCHITECTURE.md` says that a fingerprint is made from method, route template and body hash; the code
  also uses the resolved path and the query hash, and the model follows the code.

## Assumptions

- All processes read one clock, which does not run backwards; Redis expires a key at any step from its expiry time on.
- A stored record is modelled by its fields, because both kinds are written from literals with a fixed field order.
- Claim ids are unique, SHA-256 is free of collisions, and an auth store never holds a token of another account.
- A refresh response names the account its token belongs to. When the shared refresh promise settles, waiting requests
  wake in the order in which they started to wait, before any other task.
- PostgreSQL refuses every statement of an aborted transaction until a savepoint is rolled back, and answers its COMMIT
  by rolling back without an error.

## Model

| member | source | states |
|---|---|---|
| IdempotencyRecords.RetryLandsJustAfterStale | apps/api/src/common/utils/idempotency-record.utils.ts:55-66 | a waiter that obeys `retryAfterMs` returns 0 to 999 ms after the lease it met turned stale, and then no longer finds it in progress |
| IdempotencyProtocol.NextKeepsInv | apps/api/src/common/utils/idempotency.store.ts:33-188 | every step of every request keeps the inductive invariant: an open lease owns the cell or is stale, records name the lease of their owner, completed records have a producer |
| IdempotencyProtocol.RunKeepsInv | apps/api/src/common/utils/idempotency.store.ts:33-188 | the invariant holds over whole runs, and history only grows |
| IdempotencySafety.ClaimOnlyWhenAlone | apps/api/src/common/utils/idempotency.store.ts:52-89 | a request gets its record into Redis only when every other lease was finalized, released, or is past its stale age |
| IdempotencySafety.ExpiryOnlyWhenStale | packages/contracts/src/schemas/env.refinement.ts:86 | because validation orders the two settings, TTL expiry never removes a lease that is not stale |
| IdempotencySafety.HandlerStartsAloneIff | apps/api/src/common/interceptors/idempotency.interceptor.ts:50-53 | in every reachable state, when a handler starts, every other unsettled lease is stale exactly when the cell does not hold another request's fresh record |
| IdempotencySafety.CompanyAtStartIff | apps/api/src/common/interceptors/idempotency.interceptor.ts:50-53 | of the handlers running when one starts, leased or not, the one on a fresh lease is exactly the one whose record the cell holds |
| IdempotencySafety.UnclaimedStartIff | apps/api/src/common/utils/idempotency.store.ts:38-39 | a handler starts without a lease exactly when its last reply granted none, and then a retry found no ready client |
| IdempotencySafety.FreshLeaseStartsAlone | apps/api/src/common/utils/idempotency.store.ts:52-59 | while a lease is fresh, every other open lease is stale |
| IdempotencySafety.OverlapNeedsStaleLease | apps/api/src/common/utils/idempotency.store.ts:76-89 | of any two handlers that run at once, one is unclaimed or has outlived the stale age |
| IdempotencySafety.LateReplyOverlaps | apps/api/src/common/utils/idempotency.store.ts:52-59 | for every configuration: a claim answered after the stale age starts a handler beside the request that recovered it |
| IdempotencySafety.LostClientRunsUnclaimed | apps/api/src/common/utils/idempotency.store.ts:38-39 | for every configuration: a retry without a ready client runs its handler with no lease beside a fresh one |
| IdempotencySafety.StoredResponseIsFinal | apps/api/src/common/utils/idempotency.utils.ts:9-29 | until it expires a completed record is untouched by every sequence of claims, recoveries, finalizes and releases, and nobody obtains a lease |
| IdempotencySafety.LargeResponsesAreNeverStored | apps/api/src/common/utils/idempotency.store.ts:107-112 | in every run a completed record that reaches the cell is within the configured size, and its size is the number of UTF-8 bytes of the text it replays |
| IdempotencySafety.ReplayHasOrigin | apps/api/src/common/utils/idempotency.store.ts:69-75 | every replayed body was produced and stored by the lease owner of a request with the same six fingerprint fields |
| IdempotencySafety.LostCellIsNeverRegained | apps/api/src/common/utils/idempotency.utils.ts:9-29 | a cell lost by its owner never again holds that owner's record |
| IdempotencySafety.DisplacedOwnerIsHarmless | apps/api/src/common/utils/idempotency.store.ts:126-151 | after a recovery or expiry every later step of the displaced owner leaves the cell alone |
| IdempotencySafety.OneRecoveryWins | apps/api/src/common/utils/idempotency.store.ts:80-89 | of all requests that recover one record the first gets the lease and every other one is refused, whatever happens in between |
| IdempotencySafety.ReleaseAfterLostFinalize | apps/api/src/common/utils/idempotency.store.ts:138-151 | a finalize whose reply was lost is followed by a release, which never deletes the stored response |
| IdempotencySafety.ClaimingTerminates | apps/api/src/common/utils/idempotency.store.ts:152-159 | a request claims or answers within 18 steps of its own: three attempts |
| IdempotencyRetries.ClaimMeets | apps/api/src/common/utils/idempotency.store.ts:52-60 | SET NX that comes through claims exactly an empty cell and starts the handler; otherwise the request reads the cell |
| IdempotencyRetries.ReadMeets | apps/api/src/common/utils/idempotency.store.ts:62-79 | what the cell holds when GET runs decides alone: a damaged record is refused as invalid, other fields as key reuse, a stored response is replayed or refused as unavailable, a fresh lease is answered with a delay that ends 0 to 999 ms after it turns stale, a stale one is taken over |
| IdempotencyRetries.EmptyReadMeets | apps/api/src/common/utils/idempotency.store.ts:60-61 | a GET that meets an empty cell claims again, at most three times in all |
| IdempotencyRetries.TakeoverMeets | apps/api/src/common/utils/idempotency.store.ts:80-89 | RECOVER gives the lease and starts the handler exactly when the cell still holds the record that was read |
| IdempotencyRetries.RetryMeetsRecord | apps/api/src/common/utils/idempotency.store.ts:33-79 | a whole retry from its arrival, beside any behaviour of the others, is answered by what its GET meets |
| IdempotencyRetries.RetryTakesOver | apps/api/src/common/utils/idempotency.store.ts:76-89 | a retry that meets a stale lease which is still there at its RECOVER runs the handler on that lease |
| IdempotencyRetries.CompletedAnswersRetry | apps/api/src/common/utils/idempotency.store.ts:62-74 | once the cell holds a completed record, every request whose two commands come through before it expires is answered by that record |
| IdempotencyRetries.ResultIsStored | apps/api/src/common/utils/idempotency.store.ts:91-131 | a handler's result that reaches Redis while its owner holds the cell stays for the whole completed TTL: its text, or unavailable if it cannot be serialized; one over the limit frees the key |
| IdempotencyRetries.FailureFreesKey | apps/api/src/common/interceptors/idempotency.interceptor.ts:56-64 | a handler that throws frees the key for the next request |
| IdempotencyRetries.LostStoreFreesKey | apps/api/src/common/utils/idempotency.store.ts:138-151 | a finalize that never reached Redis is followed by a release that frees the key |
| IdempotencyRetries.StoredResponseIsReplayed | apps/api/src/common/utils/idempotency.store.ts:33-142 | end to end: for the whole TTL after a response was stored, every retry of the same request whose two commands come through gets that response, whatever anybody does in between |
| IdempotencyStores.IdempotencyStore.SetNx | apps/api/src/common/utils/idempotency.store.ts:52-58 | SET NX EX as one atomic step on the cell |
| IdempotencyStores.IdempotencyStore.FinalizeScript | apps/api/src/common/utils/idempotency.utils.ts:9-16 | the FINALIZE script: only the owner of a processing record stores, with the completed TTL |
| IdempotencyStores.IdempotencyStore.ReleaseScript | apps/api/src/common/utils/idempotency.utils.ts:17-23 | the RELEASE script: only the owner of a processing record deletes |
| IdempotencyStores.IdempotencyStore.RecoverScript | apps/api/src/common/utils/idempotency.utils.ts:24-29 | the RECOVER script: compare and swap on the exact record |
| IdempotencyStores.IdempotencyStore.Await | apps/api/src/common/utils/idempotency.store.ts:52-60 | one awaited command beside any behaviour of the others extends the run of the step machine |
| IdempotencyStores.IdempotencyStore.ClaimOrRead | apps/api/src/common/utils/idempotency.store.ts:33-61 | from SET NX to its result it is a run of the step machine that begins with the trips of SET NX and GET and ends in the handler, a replay, or one of the expected errors |
| IdempotencyStores.IdempotencyStore.ReadRecord | apps/api/src/common/utils/idempotency.store.ts:60-62 | claimOrRead from its GET on refines the same machine |
| IdempotencyStores.IdempotencyStore.UseRecord | apps/api/src/common/utils/idempotency.store.ts:62-90 | parsing, comparing, replaying, refusing and recovering a record refine the same machine |
| IdempotencyStores.IdempotencyStore.RetryClaim | apps/api/src/common/utils/idempotency.store.ts:152-159 | the bounded retry refines the same machine |
| IdempotencyStores.IdempotencyStore.CacheResponse | apps/api/src/common/utils/idempotency.store.ts:91-188 | storing, marking as unavailable or releasing refines the same machine; the caller sees an error only for an unserializable body |
| IdempotencyStores.IdempotencyStore.Finish | apps/api/src/common/utils/idempotency.store.ts:143-151 | release swallows its errors and always goes on to what follows |
| IdempotencyStores.IdempotencyStore.RunHandler | apps/api/src/common/interceptors/idempotency.interceptor.ts:53-65 | the handler with cacheResponse or release behind it: the answer is its failure, its result, or that its result could not be stored as unavailable |
| IdempotencyStores.IdempotencyStore.Intercept | apps/api/src/common/interceptors/idempotency.interceptor.ts:39-66 | one whole request, beside anything the others do, is a run of the machine; it is told what its GET meets, a completed record answers it with its body until it expires, and an empty cell makes its handler answer |
| StableSerialize.KeyTotal | apps/api/src/common/utils/idempotency.utils.ts:103-107 | JavaScript's listing order of sorted keys (integer-like keys first, then UTF-16 order) is total |
| StableSerialize.IndexIff | apps/api/src/common/utils/idempotency.utils.ts:103-107 | the keys listed first are the decimal numbers below 2^32 - 1 without leading zeros |
| StableSerialize.IndicesComeFirst | apps/api/src/common/utils/idempotency.utils.ts:103-107 | they come before all other keys and stand by their value |
| StableSerialize.OtherKeysByCodeUnit | apps/api/src/common/utils/idempotency.utils.ts:103-107 | the others stand by the first UTF-16 code unit in which they differ |
| StableSerialize.SortIsCanonical | apps/api/src/common/utils/idempotency.utils.ts:103-107 | two member lists sort to the same list exactly when they hold the same members |
| StableSerialize.NormalizeEquivalent | apps/api/src/common/utils/idempotency.utils.ts:100-108 | normal forms are equal exactly when the values are equal up to key order at every depth |
| StableSerialize.NormalizeIdempotent | apps/api/src/common/utils/idempotency.utils.ts:100-108 | normalizing twice is normalizing once |
| StableSerialize.EmitPrefix | apps/api/src/common/utils/idempotency.utils.ts:96-98 | the text of a value without infinities and undefined can be cut off what follows it in one way only: the printer is injective on what it tells apart |
| StableSerialize.SerializeDecidesEquivalence | apps/api/src/common/utils/idempotency.utils.ts:96-108 | equal text exactly when equal up to key order at every depth, every infinity counting as null |
| StableSerialize.FiniteTextDecides | apps/api/src/common/utils/idempotency.utils.ts:96-108 | so for values without infinities equal text means equal up to key order, and nothing else |
| StableSerialize.OverflowReadsAsNull | apps/api/src/common/utils/idempotency.utils.ts:96-108 | an object holding a number that overflows and the same object holding null are different values with one text |
| RequestFingerprints.FingerprintDecidesSameRequest | apps/api/src/common/utils/idempotency.utils.ts:73-94 | equal fingerprints exactly when the requests agree in their own fields: the method up to ASCII case with GET as default, the route template else path else "/", the url before its question mark, and query and body up to key order with infinities as null, a missing query counting as the empty object |
| RequestFingerprints.PathsTellRequestsApart | apps/api/src/common/utils/idempotency.utils.ts:76-78 | urls that differ before their question marks never share a fingerprint, whatever the route template and the hash |
| RequestFingerprints.PartsAreTheRequests | apps/api/src/common/utils/idempotency.utils.ts:73-78 | route and path of the fingerprint are those of the request, and nothing else is |
| RequestFingerprints.OverflowSharesFingerprint | apps/api/src/common/utils/idempotency.utils.ts:73-94 | for every hash, the bodies `{"n":1e400}` and `{"n":null}` share a fingerprint though they differ |
| RequestFingerprints.ReplayComesFromSameRequest | apps/api/src/common/utils/idempotency.store.ts:69-75 | end to end: a replayed body came from the handler of a request that owned the key and is the same in that sense |
| SessionSafety.OneNotificationPerSettlement | packages/api-client/src/auth/refresh-coordinator.ts:38-53 | for any number of waiters a settlement wakes them all with one outcome and calls onAuthFailure once if the session is permanently lost and some waiter is live, else not at all |
| SessionSafety.BurstSettles | packages/api-client/src/auth/refresh-coordinator.ts:45-52 | the first-in first-out microtask queue of a settlement runs dry with every waiter gone, at most one notification and the flag cleared |
| SessionSafety.WokenReqOk | packages/api-client/src/index.ts:66-91 | a request that wakes to a refreshed session takes a token of the account it captured; it notifies only for permanent outcomes |
| SessionSafety.RunKeepsInv | packages/api-client/src/index.ts:36-94 | the session invariant holds over every run of logins, switches, requests, refreshes and bootstraps |
| SessionTheorems.AdoptionIsForTheCapturedSession | packages/api-client/src/auth/refresh-coordinator.ts:125-137 | whenever onAuthRefreshed fires, identity and fingerprint are the captured ones and the response names that account |
| SessionTheorems.NewFlightCaptures | packages/api-client/src/auth/refresh-coordinator.ts:56-70 | a refresh captures token, account and fingerprint as they are when it starts, and begins at the lock in browsers with Web Locks, at the server outside browsers, and nowhere in browsers without |
| SessionTheorems.LandsIff | packages/api-client/src/auth/refresh-coordinator.ts:72-144 | in every reachable state each outcome is exactly what the event and the captured session say: invalid_session is a 400, 401 or 403 to a refresh that still stands, a server failure any other refusal or an invalid body, superseded and refreshed as the account, the fingerprint and the token in the store decide |
| SessionTheorems.NotifiesIff | packages/api-client/src/index.ts:72-75 | onAuthFailure runs once in exactly the steps in which the server refuses a refresh that still stands, or Web Locks are missing, and some waiting request is live |
| SessionTheorems.RefreshKeepsAccountIff | packages/api-client/src/auth/refresh-coordinator.ts:147-163 | a refresh never changes a signed-in account exactly for the clients that configure getAuthIdentity and for browsers without Web Locks, which never refresh |
| SessionTheorems.AccountIsStable | packages/api-client/src/auth/refresh-coordinator.ts:112-137 | over a whole run without a login, logout or switch the account stays, whatever refreshes and late bootstraps do |
| SessionTheorems.LateBootstrapWritesNothing | apps/web/src/lib/session-bootstrap.ts:11-19 | once the session has left loading, no number of bootstraps starting and ending writes to the auth store |
| SessionTheorems.BootstrapSignsInIff | apps/web/src/lib/session-bootstrap.ts:13-20 | a bootstrap answered with a user while the session is loading signs that user in; any other answer changes nothing |
| SessionTheorems.FirstAttemptIsSigned | packages/api-client/src/index.ts:36-52 | a first attempt carries the token of the signed-in account unless a REST caller brought its own authorization, the selected tenant unless a REST caller named one, and for a mutation an idempotency key |
| SessionTheorems.FirstReplyWaitsIff | packages/api-client/src/index.ts:63-66 | a first response in scope waits for a refresh exactly if it is a 401 that may refresh, and is read as it is otherwise |
| SessionTheorems.WaiterMovesOn | packages/api-client/src/index.ts:66-91 | what every waiting request does when its refresh lands: thrown, discarded, sent again, or left with its 401 |
| SessionTheorems.ReplayCarriesNewToken | packages/api-client/src/index.ts:89-92 | the second attempt carries the token the refresh brought, or the newer one found in the store |
| SessionTheorems.ReplaysStayInAccountIff | packages/api-client/src/index.ts:89-93 | every replay carries a bearer token of the captured account exactly for those clients and those browsers |
| SessionTheorems.ReplayKeepsKeyAndTenant | packages/api-client/src/index.ts:47-52 | a replay keeps the idempotency key, and a REST replay keeps the tenant header |
| SessionTheorems.OrpcReplayKeepsTenantIff | packages/api-client/src/orpc.ts:44-48 | an oRPC replay keeps its tenant header exactly when no other tenant is selected at the moment it is sent |
| SessionTheorems.OrpcReplayCanCrossTenants | packages/api-client/src/orpc.ts:90-105 | such a switch is reachable: the account's token then travels with another tenant |
| SessionTheorems.ReturnedBodyWasInScope | packages/api-client/src/auth/request-scope.ts:4-14 | a response body is returned only if its headers arrived under the captured account and tenant |
| SessionTheorems.HandoverInScopeIff | packages/api-client/src/index.ts:59-113 | in the step that returns a body its account and tenant are the captured ones exactly when the scope check is part of that step or still holds; every REST body is read in a later step than its check |
| SessionTheorems.LateBodyIsHandedOver | packages/api-client/src/auth/request-scope.ts:3-8 | for every client a run is reachable in which a REST body is returned after the tenant was switched |
| SessionTheorems.LateHeadersAreDiscarded | packages/api-client/src/index.ts:59-65 | headers that arrive under another account or tenant start a discard, for every attempt of either transport |
| SessionTheorems.DiscardedFirstReadsIff | packages/api-client/src/index.ts:61-66 | after the discard of a first REST response the request reads the empty 401 exactly when it may not refresh or its scope is still gone, else it waits for a refresh |
| SessionTheorems.DiscardedFirstEndsEmpty | packages/api-client/src/index.ts:61-94 | over every run such a request ends as an empty 401 or with an exception unless a second attempt is sent; the discarded body is never returned |
| SessionTheorems.SwitchBackReplays | packages/api-client/src/index.ts:61-93 | a switch away and back is reachable in which the discarded request is sent again under its own account and tenant |
| SessionTheorems.DiscardedEndsEmpty | packages/api-client/src/auth/request-scope.ts:10-14 | over every run any other discarded request, and a first REST one that reads on, ends as an empty 401 or with an exception |
| SessionTheorems.SingleFlight | packages/api-client/src/auth/refresh-coordinator.ts:39-44 | of all refreshes ever started at most one is in flight, it is the one whose promise is pending, and every waiting request awaits it |
| SessionTheorems.JourneysAreKept | packages/api-client/src/auth/refresh-coordinator.ts:56-86 | over every run a refresh keeps what it captured when it started, and its outcome once it has settled |
| SessionTheorems.FailuresAreBounded | packages/api-client/src/auth/refresh-coordinator.ts:45-52 | over every run onAuthFailure runs at most once per permanent loss, never for retryable or superseded outcomes |
| SessionClients.ApiClient.AwaitRefresh | packages/api-client/src/auth/refresh-coordinator.ts:39-70 | refresh(): joins the pending flight or starts one with what it captures |
| SessionClients.ApiClient.ContinueRefresh | packages/api-client/src/auth/refresh-coordinator.ts:72-144 | each continuation of the refresh is the step of the protocol |
| SessionClients.ApiClient.SettlePending | packages/api-client/src/auth/refresh-coordinator.ts:40-52 | the loop over the microtask queue computes the settlement |
| SessionClients.ApiClient.HandleFailure | packages/api-client/src/auth/refresh-coordinator.ts:45-52 | notifies at most once until its own microtask clears the flag |
| SessionClients.ApiClient.WakeUp | packages/api-client/src/index.ts:66-91 | what one request does when the refresh settles |
| SessionClients.ApiClient.StartRequest | packages/api-client/src/index.ts:36-59 | the headers of a first attempt |
| SessionClients.ApiClient.OnResponse | packages/api-client/src/index.ts:59-65 | the scope check when headers arrive, for a first attempt and for a replay |
| SessionClients.ApiClient.OnResume | packages/api-client/src/orpc.ts:34-50 | every other continuation of a request, the replay with its rebuilt headers included |
| SessionClients.ApiClient.FinishVerification | apps/web/src/lib/session-bootstrap.ts:14-20 | the late-result rule of the bootstrap |
| SessionBootstraps.RunKeepsSingleFlight | apps/web/src/lib/session-bootstrap.ts:7-28 | in every run at most one session check is in flight, and it is the one the variable holds |
| SessionBootstraps.PinsIff | apps/web/src/lib/session-bootstrap.ts:11-26 | a step leaves a settled promise in the variable exactly when it starts a check whose client throws at once |
| SessionBootstraps.PinnedForever | apps/web/src/lib/session-bootstrap.ts:9 | from then on no run ever sends the check again |
| SessionBootstraps.ClearedWhenSettled | apps/web/src/lib/session-bootstrap.ts:23-25 | without such a throw the variable is empty or holds the check in flight, over every run |
| SessionBootstraps.AnswerTellsStatus | apps/web/src/lib/session-bootstrap.ts:13-22 | an answer with a user signs in a loading session and leaves any other alone; the check's value is the status after it |
| SessionBootstraps.SettledTellsStatus | apps/web/src/lib/session-bootstrap.ts:13-22 | over every run a check settles in one step, and its value says for good whether the session was authenticated right after it |
| SessionBootstraps.LateAnswersWriteNothing | apps/web/src/lib/session-bootstrap.ts:14-15 | once the session has left loading no number of checks writes to the store |
| SessionBootstraps.SessionBootstrap.VerifySession | apps/web/src/lib/session-bootstrap.ts:7-28 | the call with its two early returns and the order of clearing and storing |
| SessionBootstraps.SessionBootstrap.Resume | apps/web/src/lib/session-bootstrap.ts:13-25 | the rest of the inner function after the answer |
| DistributedCaches.LiveEntryVanishesOnly | apps/api/src/infrastructure/cache/distributed-cache.service.ts:89-146 | a live entry vanishes only by overwrite, delete, shutdown, or as the first key when a sweep left the map full; OldestStayIsEvicted says which key stands first |
| DistributedCaches.OthersFind | apps/api/src/infrastructure/cache/distributed-cache.service.ts:89-104 | a read drops its own key once it has expired, a sweep every expired key, a delete its key, and nothing else goes |
| DistributedCaches.EntryIsLastWrite | apps/api/src/infrastructure/cache/distributed-cache.service.ts:110-146 | after every history whatever is held is the last write of its key |
| DistributedCaches.KeysStandInOrder | apps/api/src/infrastructure/cache/distributed-cache.service.ts:114-124 | after every history the keys stand in the order in which their present stays began; neither a read nor a second set moves a key |
| DistributedCaches.StayBeganWithSet | apps/api/src/infrastructure/cache/distributed-cache.service.ts:121-124 | the stay of a key began with a set of it while it was absent, and has not been interrupted |
| DistributedCaches.OldestStayIsEvicted | apps/api/src/infrastructure/cache/distributed-cache.service.ts:111-119 | the evicted key is the one that has been held longest of all that have not expired |
| DistributedCaches.HitIsLastLiveWrite | apps/api/src/infrastructure/cache/distributed-cache.service.ts:89-104 | a hit is the last value set, with no later delete, and not past its expiry |
| DistributedCaches.MissedIffEvicted | apps/api/src/infrastructure/cache/distributed-cache.service.ts:89-146 | over every history, with any number of keys: a read answers as a map whose entries time out unless the key's live write was evicted since, and exactly then it misses |
| DistributedCaches.RefinesTimedMap | apps/api/src/infrastructure/cache/distributed-cache.service.ts:89-146 | while the live keys fit at every insertion, however many keys were ever set, hits and misses are exactly those of that map |
| DistributedCaches.FewKeysFit | apps/api/src/infrastructure/cache/distributed-cache.service.ts:110-119 | a history that never sets more than 10,000 keys always fits |
| DistributedCaches.NoEvictionWithinCapacity | apps/api/src/infrastructure/cache/distributed-cache.service.ts:111-119 | an insertion evicts nothing while the other live keys are fewer than the places |
| DistributedCaches.SetExceedsBoundIff | apps/api/src/infrastructure/cache/distributed-cache.service.ts:110-126 | for any cache, an insertion leaves more than 10,000 entries exactly when the sweep left too many or a full cache whose oldest key is the empty string |
| DistributedCaches.EmptyOldestKeyGrows | apps/api/src/infrastructure/cache/distributed-cache.service.ts:114-115 | while the empty string is the oldest live key every new key adds an entry and nothing is evicted |
| DistributedCaches.NoBoundWithEmptyKey | apps/api/src/infrastructure/cache/distributed-cache.service.ts:110-126 | for every n there is a history that leaves n entries |
| DistributedCaches.SizeIsBounded | apps/api/src/infrastructure/cache/distributed-cache.service.ts:110-126 | a history without the empty key never holds more than 10,000 entries |
| DistributedCaches.DistributedCacheService.Read | apps/api/src/infrastructure/cache/distributed-cache.service.ts:89-104 | get, deleting an expired entry |
| DistributedCaches.DistributedCacheService.Write | apps/api/src/infrastructure/cache/distributed-cache.service.ts:110-126 | set with its sweep, its eviction of the first key, and the place it gives the key |
| DistributedCaches.DistributedCacheService.SweepAll | apps/api/src/infrastructure/cache/distributed-cache.service.ts:128-139 | the deleting loop keeps exactly the unexpired entries, in order, and counts the others |
| DistributedCaches.DistributedCacheService.Delete | apps/api/src/infrastructure/cache/distributed-cache.service.ts:141-146 | deleteLocal |
| DistributedCaches.DistributedCacheService.Stop | apps/api/src/infrastructure/cache/distributed-cache.service.ts:70-87 | shutdown clears the map |
| CacheInvalidation.RunKeepsCoherent | apps/api/src/infrastructure/cache/distributed-cache.service.ts:57-62 | over every run each entry of a subscribed process is newer than the last broadcast of its key, or that broadcast is on its way, or it came between the entry and the registration |
| CacheInvalidation.DeliveredMeansFreshIff | apps/api/src/infrastructure/cache/distributed-cache.service.ts:141-165 | once no invalidation of a key is undelivered, an entry is newer than its last broadcast unless that broadcast came after the entry and before the registration, and only then |
| CacheInvalidation.DeliveredMeansFresh | apps/api/src/infrastructure/cache/distributed-cache.service.ts:141-165 | so whatever was set while subscribed, or has been broadcast since, is fresh once delivered |
| CacheInvalidation.EarlyEntryCanBeStale | apps/api/src/infrastructure/cache/distributed-cache.service.ts:54-62 | an entry set before the handler was registered can be stale with nothing on its way |
| CacheLoads.LoadsAreCoalesced | apps/api/src/infrastructure/cache/cache.service.ts:53-78 | in every run: at most 1,000 registered loads, at most one per key, finished callers have their load's result, and no entry is left when all loads have settled |
| CacheLoads.MissStartsLoadIff | apps/api/src/infrastructure/cache/cache.service.ts:60-77 | a miss starts a load exactly when none is registered for its key, else it waits for that one; the new load stays unregistered exactly when 1,000 others are registered |
| CacheLoads.OneLoadPerKey | apps/api/src/infrastructure/cache/cache.service.ts:60-77 | in every run, of two unsettled loads of one key the earlier was started unregistered, while 1,000 others were registered |
| CacheLoads.OneLoadBelowLimit | apps/api/src/infrastructure/cache/cache.service.ts:60-77 | so a run that never has 1,000 loads registered never has two unsettled loads of one key |
| CacheLoads.EntryLivesAsLongAsItsLoad | apps/api/src/infrastructure/cache/cache.service.ts:71-77 | in every run an entry stays exactly as long as its load: nothing newer replaces it and nothing else removes it |
| CacheLoads.WaitersFinishWithTheirLoad | apps/api/src/infrastructure/cache/cache.service.ts:60-61 | in every run a waiter leaves exactly when its load settles, with its result or error |
| CacheLoads.ReaderGetsCachedValue | apps/api/src/infrastructure/cache/cache.service.ts:53-58 | in every run a caller is given exactly the value its cache read found, and waits for a load if it found none |
| CacheLoads.CacheService.AfterGet | apps/api/src/infrastructure/cache/cache.service.ts:55-77 | getOrSet after its cache read |
| CacheLoads.CacheService.Settle | apps/api/src/infrastructure/cache/cache.service.ts:71-88 | a load settles and its finally runs |
| Bulkheads.BeginKeepsValid | apps/api/src/common/utils/bulkhead.ts:20-29 | a call is admitted exactly when its key has a free slot and a new key has room; a refusal changes nothing |
| Bulkheads.CountsAreExecutionsInFlight | apps/api/src/common/utils/bulkhead.ts:20-37 | in every run each count is the number of executions in flight for its key, within 1..maxConcurrent, at most maxKeys keys, and the map is empty when nothing runs |
| Bulkheads.Bulkhead.Enter | apps/api/src/common/utils/bulkhead.ts:20-29 | execute up to the call of the action |
| Bulkheads.Bulkhead.Leave | apps/api/src/common/utils/bulkhead.ts:32-36 | the finally block |
| Bulkheads.Bulkhead.GetActiveCount | apps/api/src/common/utils/bulkhead.ts:39-44 | the executions in flight for one key, or the total over all |
| TransactionScopes.ScopesAreRestored | apps/api/src/infrastructure/database/database.service.ts:131-180 | for every nest whose tenant scopes all end with a usable transaction, throwing bodies and absorbed SQL errors included: queries run under the innermost scope in both copies, and on exit both are those of the entry and agree |
| TransactionScopes.SqlSoundExitsUsable | apps/api/src/infrastructure/database/database.service.ts:131-180 | every nest in which no SQL statement fails is one of those, and leaves the transaction usable whatever it throws |
| TransactionScopes.QueriesSeeInnermostIff | apps/api/src/infrastructure/database/database.service.ts:131-180 | for every nest, SQL errors included: each query runs under its innermost scope in both copies exactly when the tenants computed from the body alone say so |
| TransactionScopes.SeenIsRun | apps/api/src/infrastructure/database/database.service.ts:131-180 | the observations computed from the body alone are those of the run, query by query, from any state |
| TransactionScopes.SettingsSurviveSqlErrors | apps/api/src/infrastructure/database/database.service.ts:131-180 | for every nest, SQL errors included: both copies are those of the entry exactly when the tenants computed from the body alone are |
| TransactionScopes.TenantsIsRun | apps/api/src/infrastructure/database/database.service.ts:131-180 | that computation is what the run leaves in CLS and in the settings, from any state |
| TransactionScopes.UsableExitsKeepScopes | apps/api/src/infrastructure/database/database.service.ts:138-180 | so a body all of whose tenant scopes end with a usable transaction has both copies back, whatever errors savepoints absorb |
| TransactionScopes.TenantScopeRestoresIff | apps/api/src/infrastructure/database/database.service.ts:138-149 | one scope, whatever its body, puts both copies back exactly when the transaction is usable at its exit or the body left them so |
| TransactionScopes.RolledBackScopeLeavesCls | apps/api/src/infrastructure/database/database.service.ts:131-149 | from any tenant, an SQL error in a tenant scope inside a caught savepoint leaves CLS on the inner tenant and the settings on the outer one |
| TransactionScopes.QuerySeesDisagreement | apps/api/src/infrastructure/database/database.service.ts:131-149 | from any tenant, the query after such an absorbed error runs under the settings of the outer tenant while CLS names the inner one |
| TransactionScopes.NextScopeAdoptsTheLeak | apps/api/src/infrastructure/database/database.service.ts:140-149 | the next scope then ends normally with both copies on the leaked tenant |
| TransactionScopes.OuterScopeRepairs | apps/api/src/infrastructure/database/database.service.ts:138-149 | a scope around the absorbed error restores both copies |
| TransactionScopes.CallbacksFollowCommit | apps/api/src/infrastructure/database/database.service.ts:214-262 | for every body: the result, whether anything is committed, and which callbacks run, all read off the body; they run after a normal end only, those registered outside failed savepoints, in order |
| TransactionScopes.LeftIsRun | apps/api/src/infrastructure/database/transactions/transaction-scopes.ts:66-79 | from any state, a body leaves exactly the callbacks computed from it: a savepoint that fails discards its own |
| TransactionScopes.CallbacksWithoutCommitIff | apps/api/src/infrastructure/database/database.service.ts:237-262 | callbacks run with nothing committed exactly for bodies that end normally on an aborted transaction, a condition read off the body |
| TransactionScopes.SwallowedErrorRunsCallbacks | apps/api/src/infrastructure/database/database.service.ts:237-262 | such a body, for every context |
| TransactionScopes.DatabaseService.WithTenantScope | apps/api/src/infrastructure/database/database.service.ts:138-150 | the scope with its finally, inside a transaction |
| TransactionScopes.DatabaseService.WithSystemScope | apps/api/src/infrastructure/database/database.service.ts:159-180 | the elevated scope with its finally, inside a transaction |
| TransactionScopes.DatabaseService.WithSavepoint | apps/api/src/infrastructure/database/transactions/transaction-scopes.ts:66-79 | a throw rolls back and discards the callbacks registered since |
| TransactionScopes.DatabaseService.RunOutermost | apps/api/src/infrastructure/database/database.service.ts:242-262 | openTransaction: commit or rollback, and which callbacks run |
| Authorization.AuthorizationDecidesRule | packages/authorization/src/evaluator.ts:10-103 | for a resource of any shape the allowed bit is an order-free rule over denials, super administrators, tenants, grants and roles, in which a permission covers another by the relation of PermissionCoversIff |
| Authorization.PermissionCoversIff | packages/authorization/src/permissions.ts:145-168 | one permission covers another exactly as everything, itself, its area by a wildcard, one of six pairs, or one of the three areas of team:manage |
| Authorization.PlainGrantReachesItself | packages/authorization/src/permissions.ts:145-168 | a grant outside those families reaches nothing but itself |
| Authorization.PolicyAppliesIff | packages/authorization/src/evaluator.ts:37-47 | a policy applies exactly when one of its actions covers the action asked for and its types admit the resource as it arrived |
| Authorization.OnlyAdminsDeleteUsers | packages/authorization/src/permissions.ts:38-143 | with the role tables of the source, users:delete is granted exactly to the global role admin, whatever the tenant role |
| Authorization.TenantRoleReadsFiles | packages/authorization/src/permissions.ts:96-143 | inside a tenant files:read is granted exactly to its owner, admins and members, never by the platform role |
| Authorization.DeletingUsersIsReserved | packages/authorization/src/evaluator.ts:49-103 | so where no policy allows it, deleting users is allowed exactly to super administrators, and at request level to global administrators |
| Authorization.ConditionsSee | packages/authorization/src/evaluator.ts:10-35 | which id, tenant, type and attributes of a resource conditions see, for every shape of it |
| Authorization.NormalizeIsIdempotent | packages/authorization/src/evaluator.ts:10-35 | a normalised resource, its owner included, normalises to itself |
| Authorization.RelationTellsOwner | packages/authorization/src/evaluator.ts:83-88 | a policy decision says relation exactly for the owner that the caller passed or the source names |
| Authorization.FirstPresentDecides | packages/authorization/src/ownership.ts:18-29 | for a type without an ownership field the first owner property that is present decides alone |
| Authorization.OwnerFollowsKind | packages/authorization/src/ownership.ts:13-30 | which property names the owner: a registered field, else that of notes, files and users, else the first of eight names |
| Authorization.OrderDoesNotMatter | packages/authorization/src/evaluator.ts:59-88 | neither the order of policies nor repeats change the decision or its reason |
| Authorization.ReasonsAreWitnessed | packages/authorization/src/evaluator.ts:64-88 | each reason is given exactly or only in its case, and an explicit denial and a matched policy id name a policy that voted for the decision |
| Authorization.TenantsAreIsolated | packages/authorization/src/evaluator.ts:74-80 | no set of policies lets an ordinary principal reach another tenant's resource |
| Authorization.RegistrationIsMonotone | apps/api/src/infrastructure/authorization/authorization.service.ts:26-40 | over any sequence of registrations ALLOWs only widen and DENYs only narrow what is allowed |
| Authorization.ResolveUserPermissions | packages/authorization/src/permissions.ts:183-201 | the loops collect exactly the permissions of the principal's roles |
| UploadPolling.IntervalIsCappedPower | packages/api-client/src/subclients/upload.ts:137-150 | the backoff has a closed form: the start interval once, then doubled and capped at 5,000 ms |
| UploadPolling.PollsAreBounded | packages/api-client/src/subclients/upload.ts:139-151 | at most n0 + ceil(D / 5000) polls, where n0 doublings reach the cap |
| UploadPolling.PromptPollsAreMaximal | packages/api-client/src/subclients/upload.ts:139-151 | the bound by total delay is attained by an environment that loses no time |
| UploadPolling.EndsIff | packages/api-client/src/subclients/upload.ts:130-151 | polling ends in every environment exactly when the interval is positive or timers are never instantaneous |
| UploadPolling.RunIsPaced | packages/api-client/src/subclients/upload.ts:139-143 | every poll comes before the deadline and after all delays so far; all but the last found the upload pending |
| UploadPolling.PollUploadReady | packages/api-client/src/subclients/upload.ts:130-154 | the loop terminates, asks exactly in the turns that should and at most n0 + ceil(D / 5000) times, and ends for a reason found in its environment, the caller's own abort included |
| UploadPolling.TakeTurn | packages/api-client/src/subclients/upload.ts:139-150 | one pass of the loop: where it leaves, and when it asks |
| UploadPolling.WaitForUploadReady | packages/api-client/src/subclients/upload.ts:101-128 | callers see metadata, their own abort, a timeout past the deadline, or the server's error, never the internal abort; with both defaults at most 25 polls |
| UploadPolling.DefaultPollsAreReached | packages/api-client/src/subclients/upload.ts:27-29 | with the default deadline and interval the 25th poll takes place where no time is lost, so 25 is exact |
| ProjectPlans.Disk.ApplyPlan | scripts/project-init/project-plan.js:186-204 | success leaves what the last change of each file says; failure leaves the old contents, apart from a torn write that no earlier step covers |
| ProjectPlans.Disk.UndoAll | scripts/project-init/project-plan.js:198-201 | the loop replays the undo log backwards |
| ProjectPlans.TornWriteInRollback | scripts/project-init/project-plan.js:194-201 | the rollback repairs a torn write exactly when the log holds an earlier write to the same file |
| ProjectPlans.AllOrNothingIff | scripts/project-init/project-plan.js:186-204 | a failed plan leaves no trace exactly when its failing write did not tear an uncovered file |
| ProjectPlans.PlannedIsLast | scripts/project-init/project-plan.js:189-195 | what a plan promises for a file is the text of the last change that names it |
| EnvTexts.NothingFoundIff | scripts/project-init/project-plan.js:284-289 | nothing is found exactly when the pattern matches at no position |
| EnvTexts.TrimIsExact | scripts/project-init/project-plan.js:285-289 | trimming takes away exactly the spaces at both ends |
| EnvTexts.LocatedIsMatched | scripts/project-init/project-plan.js:284-289 | what is located is a whole line that starts with the key, with no such line before it |
| EnvTexts.MatchedIsLocated | scripts/project-init/project-plan.js:284-289 | and every such line is the one located |
| EnvTexts.SetRewritesOneLine | scripts/project-init/project-plan.js:282-286 | for every value, a set changes the key's first line to what is stored and nothing else, or appends one to the trimmed text |
| EnvTexts.SetThenGet | scripts/project-init/project-plan.js:282-290 | for every value the first line of what was stored is read back, trimmed; a value stored as written is read back exactly when it has no line terminator and no space around it |
| EnvTexts.SetThenGetOther | scripts/project-init/project-plan.js:282-290 | for every value and other key: its line before the rewritten one wins, then a line inside the stored value, then what the text held |
| EnvTexts.SetKeepsOthers | scripts/project-init/project-plan.js:282-290 | another key keeps its value exactly when its line comes earlier, or the stored value sets no such key, or sets it to what it was |
| EnvTexts.OneLineKeepsOthers | scripts/project-init/project-plan.js:282-290 | a value without line terminators, stored as written, leaves every other key alone |
| EnvTexts.SetIsIdempotent | scripts/project-init/project-plan.js:282-286 | repeating a set of a value without patterns leaves the text unchanged, character for character, exactly when the value has no line terminator |
| EnvTexts.TextIsMap | scripts/project-init/project-plan.js:282-290 | after any sequence of sets every key reads as its last set value, and a key never set as it did at first |
| EnvTexts.PatternIsExpanded | scripts/project-init/project-plan.js:285 | `$&` in a value puts the old line behind the key |
| EnvTexts.PatternsAreReplaced | scripts/project-init/project-plan.js:285 | a value is expanded pattern by pattern: `$$`, `$&`, the text before and the text after the match |
| EnvTexts.PatternCanReadBack | scripts/project-init/project-plan.js:285 | a value with a pattern can still be read back right, by accident of the text before the key |
| EnvTexts.TerminatorInjects | scripts/project-init/project-plan.js:283-285 | a key set by a further line of the stored value reads as injected exactly when it has no earlier line, or one with that value |

## Left out

- The idempotency key header, its validation, the composed Redis key and the answer without Redis in each environment: one key and its cell are modelled from the moment Redis is there.
- Lone surrogates: strings are sequences of Unicode scalar values, ordered as their UTF-16 code units are.
- Clock differences between processes, and a clock that is set back.
- EnvTexts.SetThenGet: with a replacement pattern, what is stored depends on the text around the key and can even read back right (EnvTexts.PatternCanReadBack), so only what is stored, not the value, decides.
- EnvTexts.TextIsMap: keys are names of letters, digits and underscores, so that they mean themselves in a regular expression.
- ProjectPlans.Disk.ApplyPlan: a rollback that itself fails, directories that were created, and files that are not valid UTF-8.
- UploadPolling.PollUploadReady: requires a positive interval or a timer that is never instantaneous, because without either the loop need not end (EndsIff).
- UploadPolling.WaitForUploadReady: the clock is read at the throw, not again in the handler; `uploadFile` and the source checks are sequences of requests with no invariant of their own.
- TransactionScopes.ScopesAreRestored: scopes opened without a transaction, `setTenantContext` called directly, and advisory locks.
- TransactionScopes.DatabaseService.WithSavepoint: an `Err` result of `withSavepointResult` is a throw that is caught at once.
- Authorization.AuthorizationDecidesRule: a descriptor's own fields have their declared types; extra permissions are not modelled; names that JavaScript objects inherit are taken to be absent from the role and ownership tables.
- DistributedCaches.DistributedCacheService.Write: one reading of the clock serves the sweep and the expiry; values are immutable, so the copies made by `structuredClone` have no counterpart.
- CacheInvalidation.DeliveredMeansFresh: lossless delivery to subscribed processes, and no reconnect.
- CacheLoads.LoadsAreCoalesced: the Redis reads and writes of the cache, its TTL and pattern deletes.
- SessionTheorems.HandoverInScopeIff: for oRPC the handover is the end of its fetch function; the library's own reading of the body after that is not part of this model.
- SessionTheorems.ReplayKeepsKeyAndTenant: which paths may refresh is a parameter of the request; locale, content type and XSRF headers, and response parsing.
- SessionClients.ApiClient.ContinueRefresh: the body of the refresh request and the two deadline timers, whose firing is an abort event.
- Logging, metrics, circuit breaking, rate limits, feature flags, operation receipts, user interfaces, schemas and generators.

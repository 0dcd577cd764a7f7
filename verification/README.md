# SafeScholar gateway: a verified model

This project models the stateful kernels of the SafeScholar gateway (Go, `internal/` and
`infrastructure/`) in Dafny and proves what they keep over every run. `dafny verify dfyconfig.toml`
checks all of it.

How the model is built:

- Code that changes things in place is a class with the source's fields. Each of its methods is proved
  equal, state and answer, to a function on immutable values (`Serve`, `Apply`, `Next`, `Record`, ...);
  the properties of whole runs are lemmas about that function.
- Time is an integer argument. Where a result needs a clock that does not run back, the statement says so.
- A Redis key is a map entry with an expiry time, a Postgres table is a map, and a transaction is one
  atomic step. A Go mutex makes its critical section one step.
- Argon2, bcrypt, SHA-256, random bytes, URL parsing and the network are parameters. Random identifiers
  are distinct where a statement says so.
- Strings are ASCII.

| file | models |
|---|---|
| `TokenBucket.dfy` | the token bucket script, `AllowCustom`, the `Retry-After` header and the tiers |
| `Breaker.dfy`, `Registry.dfy` | the plugin circuit breaker, and the registry that keeps plugin and breaker objects in step |
| `LoadBalancer.dfy` | health, leases, least-connections and round-robin, `ResolveURL` |
| `Sessions.dfy` | the session table, its Redis copy, the token blacklist and token validation |
| `Lockout.dfy` | login failure counters and locks |
| `Policy.dfy`, `RoleService.dfy` | permission decisions, normalisation, and the role service over its tables |
| `PasswordHash.dfy`, `Base64.dfy`, `Decimal.dfy`, `OAuthState.dfy` | printers and parsers, and the OAuth state store |
| `Telemetry.dfy` | the telemetry queue, batch and table |
| `Migrations.dfy` | the migration runner |
| `AssessmentClient.dfy` | the windowed breaker and the retry loop |
| `Arith.dfy`, `Text.dfy`, `Wrappers.dfy` | arithmetic facts, ASCII strings, option and result types |

## Where the code differs from what one would expect

Each of these is proved with the exact condition and a run that fails it:

- The admission bound breaks, and expiry becomes visible, exactly when the capacity exceeds what two
  periods of silence restore (`AdmissionBoundIff`, `ExpiryInvisibleIff`). No tier of the middleware and no
  shipped default is such a bucket, but the constructor accepts one.
- `Retry-After` loses up to 1999 ms to two truncations; waiting it out suffices for every client exactly
  when `Margin(period) * rate >= period` (`RetryAfterSufficesIff`).
- Gateways whose clocks differ at all refill the same bucket twice: the bound holds exactly for a skew of
  zero (`SkewBoundIff`). `AdmissionBound` therefore counts the clock's ascents.
- A threshold set at or below the failures already counted leaves a plugin breaker closed at its threshold
  (`AlwaysBelowIff`).
- A database row may clear a built-in plugin's system flag, after which it can be deleted
  (`SystemPluginsSurviveIff`). Tenant overrides outlive the plugin they were made for (`RecreatedIsOnIff`).
- `ResolveURL` ignores the list it is given once a pool is registered under the service name
  (`AnswersFromOwnListIff`, `SecondListIsIgnored`); internal/gateway/serviceProxy.go:44 passes every list under
  one name.
- Round-robin skips or repeats an endpoint when its counter wraps, unless the pool size divides 2^64
  (`TurnsAreDistinctIff`).
- `int64ToString` does not read back for the least 64-bit integer (`PrintedReadsBackIff`).
- A zero memory cost is accepted by `HashPassword` and refused by `VerifyPassword` (`OwnPasswordVerifiesIff`).
- `SetTokenID` from an institution that cannot see the owner changes the Redis copy alone (`SetTokenAgreesIff`).
- Creating a revoked session identifier again revives it through Redis (`ReuseStaysDeadIff`).
- One record the table refuses loses the counts of everyone in the same telemetry batch (`OneRefusalLosesTheBatch`).
- The assessment client's window is anchored at a failure and does not slide: it takes `2 * threshold - 2`
  failures in one window to be sure of a trip, and no fewer do (`BurstTripsIff`).

## Model

| member | source | states |
|---|---|---|
| `TokenBucket.TokenBucketLimiter.Eval` | internal/security/rateLimiter.go:117-153 | the script leaves under its key exactly the bucket and expiry of `Serve`/`Kept`, answers with its reply, and touches no other key |
| `TokenBucket.TokenBucketLimiter.AllowCustom` | internal/security/rateLimiter.go:55-115 | refuses exactly a blank or malformed key without touching the store; otherwise one script run under the prefixed key with defaults for parameters that are not positive, and a reset time in whole seconds |
| `TokenBucket.StepPays` | internal/security/rateLimiter.go:125-148 | one call admits and keeps no more than what was there plus the rate times forward clock movement, however the clock jumps |
| `TokenBucket.AdmissionBound` | internal/security/rateLimiter.go:129-145 | while the key lives, over any run and any clock: admitted plus left is at most what was there plus the rate times the clock's total ascent |
| `TokenBucket.AdmittedByTime` | internal/security/rateLimiter.go:129-145 | while the key lives and with an ordered clock, at most capacity + floor(elapsed * rate / period) requests pass, although every refill rounds down on its own |
| `TokenBucket.StoredBoundHolds` | internal/security/rateLimiter.go:125-148 | with expiry in play that bound holds on every ordered run whose capacity two periods of silence restore |
| `TokenBucket.ExpiryBreaksTheBound` | internal/security/rateLimiter.go:147-148 | otherwise draining the bucket, and again just after its key is gone, admits more |
| `TokenBucket.AdmissionBoundIff` | internal/security/rateLimiter.go:125-148 | the limiter as deployed, expiry included, keeps the bound on all ordered runs if and only if capacity <= 2 * rate + rate / period |
| `TokenBucket.SkewedClocksRefillTwice` | internal/security/rateLimiter.go:132-138 | for every capacity, rate, period and skew of a millisecond or more, a drained bucket read back and forth admits more than the bound |
| `TokenBucket.SkewBoundIff` | internal/security/rateLimiter.go:129-145 | for all parameters: every run whose clock steps back by at most `skew` at a time keeps the bound (while the key lives) if and only if skew is zero |
| `TokenBucket.ExpiryInvisible` | internal/security/rateLimiter.go:125-148 | if two periods of silence restore the capacity, the bucket whose key expires gives the same answers on every run as one that never expires |
| `TokenBucket.ExpiryShowsWhenOverCapacity` | internal/security/rateLimiter.go:147-148 | otherwise a drained bucket left alone answers differently |
| `TokenBucket.ExpiryInvisibleIff` | internal/security/rateLimiter.go:125-148 | expiry is invisible on all runs if and only if capacity <= 2 * rate + rate / period |
| `TokenBucket.AdmitsEverythingIff` | internal/security/rateLimiter.go:133-149 | every call of every run is admitted, expiry included, if and only if the period is below a millisecond |
| `TokenBucket.DueIff` | internal/security/rateLimiter.go:134-145 | an empty bucket admits exactly from ceil(period / rate) after its stored time, and a denial changes nothing |
| `TokenBucket.PollingNeverStarves` | internal/security/rateLimiter.go:134-145 | any number of early polls does not delay that moment |
| `TokenBucket.CreditAccounting` | internal/security/rateLimiter.go:134-145 | every credited token is admitted, still stored or cut off by the capacity |
| `TokenBucket.RoundingLosesAtMostHalf` | internal/security/rateLimiter.go:134-139 | over any run the elapsed time is worth at most twice the tokens credited for it |
| `TokenBucket.RemainingIsTrue` | internal/security/rateLimiter.go:134-151 | of any number of further calls in the same millisecond exactly as many are admitted as the reply says remain |
| `TokenBucket.ResetIsTrue` | internal/security/rateLimiter.go:134-151 | the reset time of a reply, admitted or denied, is the first moment by which a whole refill has been credited; a burst at any later moment gets what remained and what has been credited since, up to the capacity |
| `TokenBucket.UnixIsTheSecond` | internal/security/rateLimiter.go:101-107 | the reset time is told as its whole second, or a period ahead if there is none |
| `TokenBucket.ComebackBound` | internal/middleware/rateLimitMiddleware.go:207-221 | a client whose call on any bucket is denied, and that waits the seconds computed from the reset time of that very answer, is back at least `Margin(period)` after the stored time: period - 1999 ms for periods of three seconds and more |
| `TokenBucket.RetryAfterSuffices` | internal/middleware/rateLimitMiddleware.go:207-221 | it is then admitted, whether or not the key has expired and however late the header is computed, if the margin pays for one token (section 10.2.3 of RFC 9110) |
| `TokenBucket.RetryAfterWorstCase` | internal/middleware/rateLimitMiddleware.go:207-221 | otherwise a denial whose header is computed in the same millisecond sends the client back too early, for every period and rate |
| `TokenBucket.RetryAfterSufficesIff` | internal/middleware/rateLimitMiddleware.go:207-221 | for every period and rate: obeying the header always succeeds if and only if `Margin(period)` * rate >= period |
| `TokenBucket.TiersAreSound` | internal/middleware/rateLimitMiddleware.go:60-102 | in every tier of the middleware, and in the default tier of the development, production and container configurations, the admission bound holds on every run, expiry never shows and the retry header never misleads |
| `Breaker.CircuitBreaker.AllowRequest` | internal/plugins/circuitBreaker.go:39-63 | admits as `Permits` says, and an open breaker past its cooldown becomes half-open with its counters cleared |
| `Breaker.CircuitBreaker.RecordSuccess` | internal/plugins/circuitBreaker.go:65-88 | the whole new state: two canary successes close a half-open breaker |
| `Breaker.CircuitBreaker.RecordFailure` | internal/plugins/circuitBreaker.go:90-112 | the whole new state: a half-open failure or a full count opens the breaker |
| `Breaker.CircuitBreaker.ResetState` | internal/plugins/circuitBreaker.go:114-122 | the whole new state after a manual reset |
| `Breaker.CircuitBreaker.UpdateParams` | internal/plugins/circuitBreaker.go:124-134 | positive parameters are taken over, nothing else changes |
| `Breaker.StateMatchesHistory` | internal/plugins/circuitBreaker.go:39-134 | in every reachable state totals, last failure and last success are functions of the event history; requests = failures + successes; open implies a recorded failure; closed implies fails = the failure suffix since the last success or reset; canaries are at most one, and zero outside half-open |
| `Breaker.CanariesMatchHistory` | internal/plugins/circuitBreaker.go:65-88 | in every half-open state the canary count is the number of successes since the last passage to half-open, and below two |
| `Breaker.StateFollowsHistory` | internal/plugins/circuitBreaker.go:39-134 | every transition after every history: opens at the failure completing a threshold since the last success or reset, or at any while half-open; half-open at a request one cooldown after the last failure; closes at the second success since then or at a reset; and a request is refused exactly if it leaves the breaker open |
| `Breaker.ClosedBelowThreshold` | internal/plugins/circuitBreaker.go:90-112 | with a threshold never lowered, closed implies fewer failures than the threshold |
| `Breaker.AlwaysBelowIff` | internal/plugins/circuitBreaker.go:124-134 | all along a run closed implies fewer failures than the threshold, if and only if no update sets a threshold that a closed breaker has reached already |
| `Breaker.LoweredThresholdStaysClosed` | internal/plugins/circuitBreaker.go:124-134 | such a run: two failures, then a threshold of two |
| `Breaker.QuietForOneCooldown` | internal/plugins/circuitBreaker.go:39-112 | after any step that opens a breaker no request passes for one cooldown, in any interleaving of requests, late results and reconfigurations |
| `Breaker.LedgerHolds` | internal/plugins/circuitBreaker.go:39-112 | in a sequential run every failing action is paid for by a success, by the first count or by a cooldown that elapsed |
| `Breaker.FailingActionsBound` | internal/plugins/circuitBreaker.go:39-112 | a sequential run of length T with S successes has at most S * (threshold - 1) + threshold + floor(T / cooldown) failing actions |
| `Breaker.FailingActionsBoundIsTight` | internal/plugins/circuitBreaker.go:39-112 | for every threshold, cooldown, number of successes and length a run reaches that bound |
| `Registry.Guard` | internal/plugins/registry.go:359-413 | asks the breaker, runs the action if permitted, and records its result |
| `Registry.PluginRegistry.LoadRow` | internal/plugins/registry.go:216-301 | a row creates the plugin with a new breaker, or overwrites configuration and breaker parameters of the existing object |
| `Registry.PluginRegistry.TogglePlugin` | internal/plugins/registry.go:479-501 | the whole new registry, every other plugin and breaker object unchanged |
| `Registry.PluginRegistry.UpdatePluginConfig` | internal/plugins/registry.go:503-543 | positive fields are taken over and passed on to the breaker object |
| `Registry.PluginRegistry.UpdatePlugin` | internal/plugins/registry.go:674-751 | the same for an edit of the whole plugin, system flag untouched |
| `Registry.PluginRegistry.CreatePlugin` | internal/plugins/registry.go:590-672 | succeeds exactly for a named, unused identifier with a prefix; the breaker is new |
| `Registry.PluginRegistry.DeletePlugin` | internal/plugins/registry.go:753-782 | removes exactly a registered plugin that is not a system plugin |
| `Registry.PluginRegistry.SetTenantOverride` | internal/plugins/registry.go:559-588 | sets one switch of one tenant |
| `Registry.PluginRegistry.ResetCircuitOf` | internal/plugins/registry.go:545-557 | resets that plugin's breaker and no other |
| `Registry.PluginRegistry.IsPluginEnabled` | internal/plugins/registry.go:310-333 | on exactly if registered, globally enabled and not switched off by the tenant |
| `Registry.PluginRegistry.ExecuteWithResilience` | internal/plugins/registry.go:335-413 | the outcome in every fallback mode, and a breaker step exactly when the plugin is enabled |
| `Registry.PluginRegistry.MatchPluginEndpoint` | internal/plugins/registry.go:784-804 | finds a plugin whose prefix the path has, with the longest such prefix, if and only if there is one |
| `Registry.OutcomeIff` | internal/plugins/registry.go:335-413 | every outcome and exactly when it comes: unguarded for an unknown plugin, disabled, open, the action's value, its error, the plugin's own fallback or the generated one |
| `Registry.ConfigurationAfter` | internal/plugins/registry.go:479-557 | field by field what toggling, configuring, editing, loading and resetting leave of a plugin |
| `Registry.CreatedAs` | internal/plugins/registry.go:590-672 | a created plugin is found under its identifier or, lower-cased and with underscores, its name; is no system plugin; has the configuration given or the defaults; and a closed breaker to match |
| `Registry.KeysAreFolded` | internal/plugins/registry.go:303-313 | the same of a plugin and its identifier |
| `Registry.ExecuteApplies` | internal/plugins/registry.go:335-413 | in runs an execution is exactly one such guarded call |
| `Registry.RunKeepsSynced` | internal/plugins/registry.go:216-301 | over every run each breaker's threshold and cooldown equal the configured ones |
| `Registry.SystemPluginsSurviveIff` | internal/plugins/registry.go:753-782 | a system plugin stays registered, as one, all along a run if and only if no row of the run clears its flag |
| `Registry.ClearedFlagAllowsDeletion` | internal/plugins/registry.go:216-301 | after such a row it can be deleted |
| `Registry.OthersAreIsolated` | internal/plugins/registry_test.go:9-69 | no run of operations on other plugins, failing ones included, changes a plugin or its breaker |
| `Registry.BreakerSeesItsCalls` | internal/plugins/registry.go:335-413 | between reconfigurations a breaker's state is a function of that plugin's own enabled calls |
| `Registry.FailingActionsOfPluginBound` | internal/plugins/registry.go:359-413 | the amortised bound holds for each plugin of the registry under any interleaving |
| `Registry.OverrideIsLocal` | internal/plugins/registry.go:310-333 | an override does not reach other tenants and never beats the global switch |
| `Registry.EnabledByLatestOverride` | internal/plugins/registry.go:310-333 | after any run a plugin is on for a tenant if and only if it is registered, globally on, and the tenant's latest override of its key, for whichever plugin that was, did not switch it off |
| `Registry.RecreatedIsOnIff` | internal/plugins/registry.go:753-782 | a plugin created in the place of a deleted one is on for a tenant if and only if it is created on and the tenant had not switched the old one off |
| `LoadBalancer.ServicePool.Select` | internal/gateway/loadBalancer.go:98-165 | revives endpoints, takes a candidate that is least loaded with first-index ties, or the next in turn, and adds one lease |
| `LoadBalancer.ServicePool.FilterHealthy` | internal/gateway/loadBalancer.go:119-129 | the healthy indices in order, or all of them when none is healthy |
| `LoadBalancer.ServicePool.FewestConnections` | internal/gateway/loadBalancer.go:132-142 | the first candidate with the fewest connections |
| `LoadBalancer.ServicePool.ReleaseConnection` | internal/gateway/loadBalancer.go:151-165 | first half of a release: one connection less |
| `LoadBalancer.ServicePool.RecordOutcome` | internal/gateway/loadBalancer.go:151-165 | second half: a success clears the failures, the third failure makes the endpoint unhealthy |
| `LoadBalancer.LoadBalancer.RegisterService` | internal/gateway/loadBalancer.go:52-96 | succeeds exactly with a name and one usable URL, replaces that pool and no other; its URLs are the usable ones in order |
| `LoadBalancer.UsableAllIff` | internal/gateway/loadBalancer.go:58-84 | exactly the trimmed pieces of the lists that are not blank and parse become endpoints |
| `LoadBalancer.NamesAreFolded` | internal/gateway/loadBalancer.go:98-101 | a pool is found under its name whatever the letter case and surrounding spaces |
| `LoadBalancer.LoadBalancer.ResolveURL` | internal/gateway/loadBalancer.go:171-191 | one URL passes through; a list registers a pool only under an unused name, and the answer is a selection whose lease is kept |
| `LoadBalancer.AnswersFromOwnListIff` | internal/gateway/loadBalancer.go:171-191 | in every run under one name, a list is answered from itself if and only if there has been no usable list before, or it names the URL whose turn it is in the first usable one |
| `LoadBalancer.SecondListIsIgnored` | internal/gateway/loadBalancer.go:179-186 | such a failing run: after a list of two URLs any second list is answered with the second of them |
| `LoadBalancer.CoherentAlways` | internal/gateway/loadBalancer.go:107-165 | over every interleaving of selections and half-releases: connections = outstanding leases, and healthy if and only if fewer than three failures |
| `LoadBalancer.HealthMatchesHistory` | internal/gateway/loadBalancer.go:111-165 | over every interleaving an endpoint is unhealthy exactly after three failures in a row, until a success or the first selection more than fifteen seconds after the latest of them |
| `LoadBalancer.SelectNeverFails` | internal/gateway/loadBalancer.go:107-143 | a pool that is not empty has a candidate, and no unhealthy one while a healthy one exists |
| `LoadBalancer.UnreleasedIsLevel` | internal/gateway/loadBalancer.go:131-143 | without releases the argmin takes endpoint k mod n on its k-th call and loads stay level |
| `LoadBalancer.ResolveIsRoundRobin` | internal/gateway/loadBalancer.go:171-191 | in every run of `ResolveURL` under one name the k-th list is answered with URL k mod n of the first usable list, and no endpoint is more than one connection ahead |
| `LoadBalancer.TurnsAreTaken` | internal/gateway/loadBalancer.go:143-147 | the k-th round-robin selection on a healthy pool takes the endpoint the 64-bit counter points at |
| `LoadBalancer.TurnsAreDistinctIff` | internal/gateway/loadBalancer.go:143-147 | n round-robin selections on n healthy endpoints take each once, from every counter value, if and only if n divides 2^64 |
| `Sessions.SessionManager.CreateSession` | internal/auth/sessionManager.go:43-90 | inserts the row unless the identifier exists and writes the Redis copy, exactly when identifiers and expiry are in order |
| `Sessions.SessionManager.ValidateSession` | internal/auth/sessionManager.go:92-146 | a live copy decides alone, otherwise the row; each error in the source's order |
| `Sessions.SessionManager.RevokeSession` | internal/auth/sessionManager.go:148-175 | marks the row the institution can see and deletes the copy |
| `Sessions.SessionManager.SetTokenID` | internal/auth/sessionManager.go:177-222 | sets the token of the visible row and of a copy that has time left |
| `Sessions.SessionManager.BlacklistTokenID` | internal/auth/sessionManager.go:224-236 | lists the token for the time given, at least a minute's default |
| `Sessions.SessionManager.RevokeAllUserSessions` | internal/auth/sessionManager.go:253-305 | marks every row of the user, deletes every copy and lists every token for a day |
| `Sessions.AgreeAlways` | internal/auth/sessionManager.go:43-222 | in every reachable state each copy belongs to a row, expires with it and equals it until then |
| `Sessions.CacheIsInvisible` | internal/auth/sessionManager.go:92-146 | the Redis path and the Postgres path give the same verdict and session in every reachable state, whatever keys Redis lost |
| `Sessions.SetTokenAgreesIff` | internal/auth/sessionManager.go:177-222 | setting a token keeps the two in step if and only if no copy still counts, the institution sees the owner, or the token is unchanged |
| `Sessions.RevocationIsPermanent` | internal/auth/tokenValidator.go:56-100 | once nothing stored can validate a session, no access or refresh token of it is accepted in any later state |
| `Sessions.RevokeKillsIff` | internal/auth/sessionManager.go:148-175 | `Revoke` achieves that if and only if the row is absent, already revoked or visible to the institution |
| `Sessions.RevokeAllKillsIff` | internal/auth/sessionManager.go:253-305 | `RevokeAllUserSessions` achieves it for exactly the sessions the table holds under the user, and leaves every other session as it was |
| `Sessions.RevokedForGood` | internal/auth/sessionManager.go:253-305 | after any history, one `Revoke` or `RevokeAllUserSessions` ends the session for every later run, blacklist lapses included |
| `Sessions.ReuseStaysDeadIff` | internal/auth/sessionManager.go:43-90 | a dead session survives the creation of its identifier as dead if and only if the new one is refused or revoked, or there is no Redis and the table keeps the old row |
| `Sessions.ReusedIdentifierRevives` | internal/auth/sessionManager.go:43-90 | in the other cases it is valid again at once |
| `Sessions.RowsMatchHistory` | internal/auth/sessionManager.go:43-305 | after every history a row is as first created, with the latest token that an institution seeing the owner set, and revoked if such an institution or a revocation of all the owner's sessions said so |
| `Sessions.ValidatesIff` | internal/auth/sessionManager.go:92-146 | in every reachable state a session validates exactly if its row is there, unrevoked and unexpired, and is answered with that row's fields |
| `Sessions.BlacklistedIff` | internal/auth/sessionManager.go:224-305 | after every history a token is listed exactly until its latest listing, on its own or with all sessions of a user, lapses |
| `Sessions.AcceptsIff` | internal/auth/tokenValidator.go:56-100 | in every reachable state exactly these tokens are accepted: complete, of the right kind, not listed, of a session in force; an access token whatever token the session has, a refresh token only if the session has this one or none |
| `Sessions.LoginIsServed` | internal/auth/authService.go:185-207 | after a login that stores a refresh identifier its access tokens are accepted until the session expires, and of refresh tokens exactly that one |
| `Sessions.RotationIff` | internal/auth/sessionManager.go:177-222 | after any history, setting a token makes it the one refresh token accepted |
| `Lockout.LoginGuard.AllowAttempt` | internal/auth/authService.go:453-476 | allowed exactly if neither the account nor the address is locked |
| `Lockout.LoginGuard.RecordFailure` | internal/auth/authService.go:478-516 | counts for account and address; at the limit the counter is replaced by a lock |
| `Lockout.LoginGuard.ClearFailures` | internal/auth/authService.go:518-533 | drops counters and locks of both |
| `Lockout.LoginGuard.Login` | internal/auth/authService.go:100-215 | the lockout part of one login: refused while locked, a failure counted, a success clears |
| `Lockout.KeysReflectHistory` | internal/auth/authService.go:453-533 | after every run of logins, successes and lapses included, counter and lock of a subject are those of the failure times since its last success, lapse or lock |
| `Lockout.LockedIff` | internal/auth/authService.go:453-516 | a subject is locked exactly for the lock's length from the failure that was the limit's last of a count, and a login is admitted exactly if none of its subjects is |
| `Lockout.LimitLocks` | internal/auth/authService.go:478-500 | for every policy: of failures in one window the limit's own locks, and after all earlier ones the account is still admitted |
| `Lockout.AccountsAreFolded` | internal/auth/authService.go:535-555 | one account, however its address is typed |
| `Lockout.LockoutBound` | internal/auth/authService.go:453-533 | a sequential run of length T without a success records at most M * (1 + floor(T / min(window, lock))) failures on a subject |
| `Lockout.LongLockBound` | internal/auth/authService.go:453-533 | where a lock lasts two windows and more, at most (M - 1) * (1 + floor(T / window)) + 1 |
| `Lockout.ShippedLockoutBound` | internal/auth/authService.go:76-84 | with the shipped numbers: four per account and quarter of an hour and one more in all; ten per address and quarter of an hour |
| `Lockout.CounterAndLockNeverCoexist` | internal/auth/authService.go:478-533 | in every state a live counter is between 1 and M - 1, and no subject has a live counter and a live lock |
| `Policy.Allowed` | internal/rbac/policyEngine.go:11-44 | allowed exactly if the requirement is blank or some held code, in canonical form, implies it |
| `Policy.AllowedAddsNothing` | internal/rbac/policyEngine.go:11-44 | adding a code that is allowed anyway changes no decision |
| `Policy.DelegateCode` | internal/rbac/policyEngine.go:11-44 | role administration comes from SUPER_ADMIN, MANAGE_LOCAL_ROLES or MANAGE_ROLES and no other code |
| `Policy.GrantsByCode` | internal/rbac/policyEngine.go:11-44 | for each administrative requirement exactly the codes that satisfy it |
| `Policy.Normalize` | internal/rbac/policyEngine.go:46-61 | the loop with its seen-set computes `Normalized` |
| `Policy.NormalizedHolds` | internal/security/jwtManager.go:254-269 | exactly the non-blank canonical codes survive, each once |
| `Policy.NormalizingPreservesDecisions` | internal/security/jwtManager.go:254-269 | normalising a token's permissions changes no decision of the policy engine |
| `Policy.NormalizedTwice` | internal/rbac/policyEngine.go:46-61 | normalising is idempotent |
| `Policy.NormalizedKeepsOrder` | internal/rbac/policyEngine.go:46-61 | codes keep the order in which they first appear |
| `RoleService.RoleService.CreateNewRole` | internal/rbac/roleService.go:60-110 | inserts one custom role of the actor's institution exactly if the actor may, and name and institution are in order; otherwise says why and changes nothing |
| `RoleService.RoleService.AssignPermissionToRole` | internal/rbac/roleService.go:112-188 | adds one grant exactly if the actor may equip roles, may hand the code on and owns the role, and the code is catalogued; otherwise nothing changes |
| `RoleService.RoleService.RemovePermissionFromRole` | internal/rbac/roleService.go:190-245 | drops one grant exactly if the actor may equip roles and owns the role |
| `RoleService.RoleService.AssignRoleToUser` | internal/rbac/roleService.go:247-305 | adds one membership exactly if the actor may staff roles, owns the role, and the user is of its institution |
| `RoleService.RoleService.UnassignRoleFromUser` | internal/rbac/roleService.go:307-360 | drops one membership under the same conditions |
| `RoleService.RoleService.UpdateRoleName` | internal/rbac/roleService.go:423-475 | renames exactly a custom role the actor owns, if the name is free |
| `RoleService.RoleService.DeleteRoleById` | internal/rbac/roleService.go:477-528 | removes exactly a custom role the actor owns, with its grants and memberships |
| `RoleService.CallDoesExactly` | internal/rbac/roleService.go:60-528 | entry by entry what each operation leaves: a refused one everything; any other all but the one row, permission or membership, of the role and user it names |
| `RoleService.CallSucceedsIff` | internal/rbac/roleService.go:60-528 | for every actor and operation exactly when it succeeds |
| `RoleService.PowersByCode` | internal/rbac/roleService.go:530-558 | by codes held: who may shape roles, equip them and staff them, on their own and with a delegation |
| `RoleService.RefusalsSayWhy` | internal/rbac/roleService.go:131-140 | the refusals for handing on too much and for changing a system role come exactly then |
| `RoleService.NamesStayUnique` | internal/rbac/roleService.go:60-110 | no operation makes two roles of an institution share a name |
| `RoleService.OthersAreUntouched` | internal/rbac/roleService.go:112-188 | no operation of an actor other than a system administrator changes system roles or another institution's roles, their permissions or members, or gives a role to another institution's user |
| `RoleService.CoherenceKept` | internal/rbac/roleService.go:477-528 | no operation leaves a grant or membership of a role that is gone |
| `RoleService.NewRoleIsEmpty` | internal/rbac/roleService.go:60-110 | hence a new role starts without permissions and members |
| `RoleService.LoadUserPermissions` | internal/auth/authService.go:423-451 | the loop collects the canonical non-blank names |
| `RoleService.HandingOnStaysUnder` | internal/rbac/roleService.go:131-140 | whoever holds only codes under a closed ceiling is no system administrator and can hand on only codes under it |
| `RoleService.LoginStaysUnder` | internal/auth/authService.go:423-451 | a token issued at login carries only codes under the ceiling |
| `RoleService.TokenCarriesExactly` | internal/auth/authService.go:169-179 | a token carries exactly the codes of the listed permissions, and SUPER_ADMIN for a system administrator, and acts as one exactly with that code |
| `RoleService.CeilingHolds` | internal/rbac/roleService.go:112-188 | over every run of logins and operations with stale tokens, no closed per-institution ceiling on permissions is ever broken |
| `RoleService.GlobalNeverSpreads` | internal/rbac/roleService.go:112-188 | if no custom role and no ordinary user has SUPER_ADMIN or MANAGE_GLOBAL_TENANTS, none ever will |
| `RoleService.NoDelegateNoGrowth` | internal/rbac/roleService.go:131-140 | in an institution without delegates nobody ever comes to do more than the codes at the start imply, whatever happens in other institutions |
| `RoleService.DelegateGrantsIff` | internal/rbac/roleService.go:131-140 | a holder of MANAGE_LOCAL_ROLES or MANAGE_ROLES gives a role of the institution a catalogued code if and only if it is not global or is allowed to the holder |
| `PasswordHash.ParseArgon2Params` | internal/security/hashing.go:129-167 | the loop over the pairs computes `ParseCosts` |
| `PasswordHash.TextOfHash` | internal/security/hashing.go:44-48 | every stored text is algorithm, version 19, costs in decimal, salt and key in unpadded base64, in this order |
| `PasswordHash.DecodesIff` | internal/security/hashing.go:93-127 | a text decodes exactly if it has six fields, the right algorithm and version, and costs, salt and key that read; and then to what they read as |
| `PasswordHash.BcryptIsAsked` | internal/security/hashing.go:58-63 | a hash of any of three bcrypt versions is left to bcrypt |
| `PasswordHash.CostsRoundTrip` | internal/security/hashing.go:129-167 | the printed costs read back, unless one is zero |
| `PasswordHash.HashStringRoundTrip` | internal/security/hashing.go:93-127 | for all salts, keys and costs in range the printed string decodes to exactly what was printed, unless a cost is zero |
| `PasswordHash.HashVerifiesIff` | internal/security/hashing.go:50-74 | a hash verifies another password exactly when the derived keys agree and memory is not zero |
| `PasswordHash.OwnPasswordVerifiesIff` | internal/security/hashing.go:33-74 | hashing and then verifying succeeds if and only if the password is not blank and neither a cost nor the key length is zero |
| `Base64.RoundTrip` | internal/security/hashing.go:44-48 | unpadded base64 decodes to the bytes it was made from and has (4n + 2) / 3 characters (section 3.2 of RFC 4648) |
| `Base64.DecodesIff` | internal/security/hashing.go:110-117 | a text decodes exactly if, line breaks aside, it is of the alphabet and leaves no single symbol over |
| `Base64.Vectors` | internal/security/hashing.go:44-48 | vectors of section 10 of RFC 4648, and the two symbols in which the alphabets differ |
| `Base64.EncodedHasNoSeparator` | internal/oauth/oauthService.go:568-574 | neither alphabet holds a separator of the formats it is embedded in |
| `Decimal.FillDigits` | internal/middleware/rateLimitMiddleware.go:149-169 | the loop stays in the 32 places and leaves the decimal digits at their end |
| `Decimal.Int64ToString` | internal/middleware/rateLimitMiddleware.go:149-169 | the text printed, wrapped negation included |
| `Decimal.ParseDecimal` | internal/middleware/rateLimitMiddleware.go:149-169 | the canonical decimal of every 64-bit integer parses back to it |
| `Decimal.ParseUintIff` | internal/security/hashing.go:129-167 | exactly the digit strings of numbers below the limit are read, as those numbers |
| `Decimal.PrintedReadsBackIff` | internal/middleware/rateLimitMiddleware.go:149-169 | what is printed parses back to the input if and only if it is not the least integer, and has no leading zero |
| `OAuthState.OAuthService.Start` | internal/oauth/oauthService.go:220-263 | stores the packed secret under the state, or sends it in a cookie when there is no Redis |
| `OAuthState.OAuthService.ConsumeState` | internal/oauth/oauthService.go:380-416 | reads the cookies in order, removes the state and unpacks its secret exactly if echoed and live |
| `OAuthState.RandomTokens` | internal/oauth/oauthService.go:568-574 | 32 random bytes give 43 characters without a colon and decode back (section 4.1 of RFC 7636) |
| `OAuthState.UnpackPacked` | internal/oauth/oauthService.go:225-263 | packing verifier and nonce loses nothing |
| `OAuthState.CookiesCarryTheSecret` | internal/oauth/oauthService.go:380-416 | without Redis the cookies a start sets, sent back, give the callback its secret, whatever cookies come before them |
| `OAuthState.NoCookieNoValue` | internal/oauth/oauthService.go:380-416 | without a cookie of the name there is nothing to echo |
| `OAuthState.StoredHasUnspentStart` | internal/oauth/oauthService.go:225-263 | in every state a stored entry has an unspent start behind it and holds that start's secret |
| `OAuthState.StateIsSingleUseAndLossless` | internal/oauth/oauthService.go:380-416 | over every interleaving a state is consumed no more often than started, and yields exactly what its start stored |
| `OAuthState.FreshStateIsServedIff` | internal/oauth/oauthService.go:380-416 | a callback gets its secret if and only if it comes within the lifetime, whatever happened to other states since the start |
| `Telemetry.TelemetryLogger.IncrementTenantLoad` | internal/middleware/tenantTelemetryMiddleware.go:94-102 | queued, dropped at a full queue, or a panic after closing |
| `Telemetry.TelemetryLogger.Receive` | internal/middleware/tenantTelemetryMiddleware.go:71-81 | moves one record from the queue into the nested map |
| `Telemetry.TelemetryLogger.Upsert` | internal/middleware/tenantTelemetryMiddleware.go:52-65 | the transaction adds every count of the batch, or is aborted exactly if one record is refused |
| `Telemetry.TelemetryLogger.Flush` | internal/middleware/tenantTelemetryMiddleware.go:47-69 | the batch is added as a whole or not at all, and is emptied either way |
| `Telemetry.TelemetryLogger.CloseAndDrain` | internal/middleware/tenantTelemetryMiddleware.go:89-92 | after it returns, queue and batch are empty and all queued records went through the flushes, wherever the timer put its own in between |
| `Telemetry.NothingIsMiscounted` | internal/middleware/tenantTelemetryMiddleware.go:42-102 | for every record and interleaving: issued = dropped + queued + in the batch + persisted + lost in failed transactions |
| `Telemetry.SoundAlways` | internal/middleware/tenantTelemetryMiddleware.go:42-92 | the queue keeps its bound, the batch holds only positive counts, and an ended worker left nothing behind |
| `Telemetry.ShutdownSettlesTheAccount` | internal/middleware/tenantTelemetryMiddleware.go:42-92 | with a database that answers, the table has grown by exactly issued minus dropped after shutdown |
| `Telemetry.OneRefusalLosesTheBatch` | internal/middleware/tenantTelemetryMiddleware.go:47-69 | one refused record loses every count of its batch; the table is unchanged exactly if the batch does not land |
| `Migrations.Database.ApplyMigrations` | infrastructure/database/migrations.go:21-67 | commits the walk over the whole list, or leaves records and schema as they were |
| `Migrations.NothingRunsTwice` | infrastructure/database/migrations.go:39-59 | over any runs of any lists no name is executed twice, and the record names exactly what was executed |
| `Migrations.RunsExactlyOnce` | infrastructure/database/migrations.go:21-67 | over any runs of a growing list, failures included, what was executed is the last list that succeeded, in its order |
| `Migrations.AttemptSucceedsIff` | infrastructure/database/migrations.go:21-67 | the next run succeeds if and only if the database answers and executes each new migration after all before it |
| `Migrations.RerunChangesNothing` | infrastructure/database/migrations.go:46-51 | running a list again after success changes nothing |
| `Migrations.ChangedMigrationIsRefused` | infrastructure/database/migrations.go:46-51 | one recorded migration with another checksum fails the whole run and changes nothing |
| `Migrations.SpacesDoNotCount` | infrastructure/database/migrations.go:79-82 | an executed migration edited only in its surrounding spaces still matches |
| `Migrations.PaddedChecksumsMatch` | infrastructure/database/migrations.go:46-51 | a recorded checksum is compared without surrounding spaces |
| `AssessmentClient.CircuitBreaker.AllowRequest` | internal/clients/assessmentClient.go:227-244 | refuses exactly before the open time ends; past it the open time is cleared |
| `AssessmentClient.CircuitBreaker.RecordSuccess` | internal/clients/assessmentClient.go:246-253 | back to the fresh state |
| `AssessmentClient.CircuitBreaker.RecordFailure` | internal/clients/assessmentClient.go:255-272 | the whole new state: counts in a window begun by a failure, and opens at the threshold |
| `AssessmentClient.CountsAlways` | internal/clients/assessmentClient.go:227-272 | the count is of the last failures in a row, all within one window of the remembered first; half-open never outlives a call |
| `AssessmentClient.EveryTripIsJustified` | internal/clients/assessmentClient.go:255-272 | every trip has at least threshold failures in one window behind it, with no success between |
| `AssessmentClient.RefusalsFollowATrip` | internal/clients/assessmentClient.go:227-244 | a refusal has a trip behind it, within its open time and with no success since |
| `AssessmentClient.RefusesIff` | internal/clients/assessmentClient.go:227-272 | after every history a request is refused exactly before the open time of the latest trip is over, unless a success came since |
| `AssessmentClient.BurstTripsIff` | internal/clients/assessmentClient.go:255-272 | for all limits: n failures in one window without a success always trip, whatever came before and whatever requests fall between, if and only if n >= 2 * threshold - 2 (one for a threshold of one) |
| `AssessmentClient.WorstBurstIsQuiet` | internal/clients/assessmentClient.go:255-272 | the witness for every threshold: a burst over the end of a count with one failure fewer does not trip |
| `AssessmentClient.Client.Once` | internal/clients/assessmentClient.go:97-133 | usable exactly if answered below 500 with a good signature; the breaker hears of the first two only |
| `AssessmentClient.Client.WithRetry` | internal/clients/assessmentClient.go:70-95 | stops at the first usable reply; after k failed tries it has waited 100 * (2^k - 1) ms; no try begins at or after the deadline, and it is cancelled only when the next one would; the breaker saw exactly the tries made |
| `AssessmentClient.Client.Do` | internal/clients/assessmentClient.go:45-68 | no try while the breaker refuses, one for a request not safe to repeat, three at most otherwise; every try but a final successful one was unusable |
| `AssessmentClient.RetryableIff` | internal/clients/assessmentClient.go:166-183 | GET, HEAD, PUT, DELETE and OPTIONS are tried again, however written, POST and PATCH never, nor a body that cannot be sent again |

## Left out

- Lua numbers beyond 2^53, where doubles stop being exact.
- Latency averages, statistics views, logging, audit records and HTTP handlers.
- Reads of connection counts that race with the decrement outside the lock: one selection is one step; releases do interleave with selections at each of their two halves.
- Plugin fields without behaviour here (version, description, target), the list of built-in plugins, and failed writes of the registry to its table.
- Other operations on a plugin while its action runs: a call's permission and its result are one registry step; `QuietForOneCooldown` and `StateMatchesHistory` do cover late results.
- Parsing of URLs, the Argon2 and bcrypt functions, random bytes and token signatures are parameters.
- A session's address, user agent and creation time, the cast of its columns to UUIDs, and the rounding of database timestamps.
- Other requests between the read and the write of a Redis entry in `SetTokenID`, and between the lockout check and the count: each is one step.
- Failed Redis calls in the session store and in the lockout, other than keys lost by Redis itself.
- Row-level security in the role service: the model shows its statements every row, so it allows at least what the database allows.
- `ApproveUser` and bootstrap assignments, which grant roles outside the role service, and operations by system administrators in the runs about permissions.
- The delegation tables: what the delegation service answers is a parameter of each operation.
- RoleService.LoadUserPermissions: the query itself is the parameter `listed`, any list of names of the user's permissions.
- Telemetry.TelemetryLogger.Upsert: the nested loops over institutions and roles are one loop over their pairs, in any order.
- No migration in the repository creates the `tenant_analytics` table; whether it accepts a record is a parameter.
- Migrations that change the `schema_migrations` table themselves, and two processes that migrate at once.
- AssessmentClient.Client.WithRetry: the context's cancellation is a deadline known beforehand, and a wait that ends with it counts as ended.
- TokenBucket.AdmissionBound: concerns one bucket between expiries; `AdmissionBoundIff` has expiry in it, with Redis's clock equal to the gateway's.
- Unicode: trimming and case mapping are ASCII, and a length is counted in characters.

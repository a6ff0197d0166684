# Verified model of the identity service's credential and quota engine

This project models the state machines at the heart of the `fusion_identity` service and proves what they
keep. Every machine is a set of pure step functions over explicit time; the objects that the service updates in
place are classes whose methods are proved to take exactly those steps; the theorems are about every run of the
steps. `dafny verify dfyconfig.toml` checks everything.

| file | models |
|---|---|
| `RpmWindow.dfy` | the sliding 60 s request window as a Redis script over a key with its own time-to-live |
| `LeaseSet.dfy` | concurrency leases in a sorted set, with reaping, key expiry and marker keys |
| `Servicer.dfy` | the authorize pipeline with rollback, lease release and usage reports |
| `QuotaPlane.dfy` | runs of that plane, atomic or interleaved between its two gates, with the lease log and the allowances granted |
| `LeaseLog.dfy` | the lease log with every wait of the handlers a step of its own |
| `Overshoot.dfy` | how far a day's token counter can pass its cap |
| `TenantCache.dfy` | the 300 s cache of tenant information, its fills read by read, and invalidations |
| `RefreshFamily.dfy` | refresh-token rotation and reuse (section 4.14.2 of RFC 9700) under every interleaving |
| `JtiLedger.dfy` | issued and revoked token ids, sweeping, and `exp` (section 4.1.4 of RFC 7519) |
| `AccountDeletion.dfy` | account deletion in its two steps, among logins and refreshes |
| `CanonicalJson.dfy` | the JSON text that the audit log hashes, and that it reads back in one way only |
| `AuditChain.dfy`, `AuditQuery.dfy` | the hash-chained audit log with cap eviction, and the paged query over it while it moves on |
| `LoginLimiter.dfy` | token buckets with sweep and forced eviction |
| `KeyRing.dfy` | signing keys: rotation, pruning, the file, restart |
| `Outbox.dfy` | the event outbox and its retrying worker |
| `KekSweep.dfy`, `KekRuns.dfy` | re-encryption of stored secrets under a new key-encryption key, alone and among other handlers |
| `Roles.dfy` | roles, menus, memberships, and the last administrator |

Conventions. The clock is an input of every step and never runs back; Redis steps count milliseconds because key
expiry does, and scripts see whole seconds. Ids that the service draws at random are fresh. SHA-256 is an injective
function whose digests are never `genesis` and contain no brace; authenticated encryption opens only under the key
that sealed. A Redis script is one atomic step. `InMemoryStore` coroutines never wait, so a handler over them alone
is one step; where a handler waits in between (`auth.py:357-420`, `611-652`, `692-792`, `928-940`,
`grpc_servicer.py:127-169`, `218-257`, `299-307`, `346-354`, `routes/admin.py:405-457`, `routes/audit.py:189-209`,
`routes/members.py:85-149`, `233-258`, `events.py:98-187`), the model also has the interleaved form.

## Properties that fail, and exactly when

Where the code does not do what a comment, a name or the design suggests, the code is modelled as it is, a concrete
run shows the failure, and the exact condition is proved.

- The request window (`cache.py:26-27` says it closes correctly under sustained traffic): `RpmWindow.BurstDoubles`
  shows twice the limit in one window for every limit of at least 2, `RpmWindow.WindowExactIff` that the window is
  exact on every trace if and only if the limit is 1, `RpmWindow.RateBound` that twice the limit is the worst.
- Reuse of a refresh token ends its family: `RefreshFamily.ReuseIsFinalIff` (if and only if no rotation of the
  family is between its compare-and-set and its insert), with the run in `RefreshFamily.ReuseRace`.
- A logout, password change, account or tenant deletion ends the families it is meant for:
  `RefreshFamily.RevocationIsFinalIff` gives the same condition for every scope, `RefreshFamily.RevocationRace` the
  runs, `RefreshFamily.RevokedForGood` the plain statement when nothing is in flight.
- Account deletion revokes what was issued: `JtiLedger.DeletionIsFinalIff` (if and only if the token has expired by
  then, or does not outlive its 8 h ledger entry, or was revoked before and outlives neither that entry nor the next
  day); `JtiLedger.DefaultSessionComesBack` shows a default 12 h session. The deletion revokes ids and sessions one
  after the other: `AccountDeletion.DeletionIsFinalIff` (if and only if no access token of the user was recorded in
  between, and no login and no refresh of the user is under way), with the run in `AccountDeletion.TokenSurvives`.
- Revocation by an administrator, and logging out: `JtiLedger.AdminRevokeIsFinalIff` and `JtiLedger.LogoutIsFinalIff`
  (if and only if the token expires within 24 h); `JtiLedger.AdminRevokedComesBack` shows a two-day token.
- Appends of other tenants cannot change a tenant's audit verdict (comment at `store.py:1332-1334`):
  `AuditChain.OtherAppendVerdictIff` gives the exact exception, an eviction of one of several rows of the tenant;
  `AuditChain.FullLogBreaks` shows a full log in which that happens.
- A quota change takes effect at once: `TenantCache.DropSettlesIff` (if and only if no fill under way has read
  something that has changed since), with the run in `TenantCache.PutQuotaRace`. The administrator's tenant update
  drops no key entry at all: `TenantCache.UpdateTakesEffectIff`, with the run in `TenantCache.DisabledStillActive`.
- Retired signing keys verify for a grace of 24 h: the age counts from creation, so `KeyRing.GraceFromRetirementIff`
  gives a full day after retirement if and only if the key was created no earlier than it was retired;
  `KeyRing.RetiredAndGone` shows a key that is gone a second after its retirement.
- Keys survive a restart (comment at `jwks.py:113-115`): `KeyRing.RestartKeepsIff` (a key verifies after it if and only
  if the saved ring has it, or without a file, which is the default, the configured key is it). So every key verifies
  for its day if and only if each restart finds all such keys (`KeyRing.KeysVerifyForADayIff`);
  `KeyRing.RotationIsLost` loses one that is seconds old.
- No secret survives the rotation under the retired key (comment at `routes/admin.py:376-378`). After an uninterrupted
  sweep: `KekSweep.WindowClosesCleanlyIff` (if and only if no application credential is under it), with
  `KekSweep.CredentialIsLost`. Among other handlers, for providers and factors: `KekRuns.NothingLeftBehindIff` (if and
  only if no verification of a factor wrote a blob under the previous key back past its iteration, and none that
  has read one is still under way), with the run in `KekRuns.VerifyBringsBack`.
- The sweep changes no meaning while other handlers write: `KekRuns.UnseenIff` (if and only if no iteration comes
  after another handler's write or deletion of a record it had listed with something else), with the runs in
  `KekRuns.WriteIsLost` and `KekRuns.FactorIsBack`.
- A tenant keeps its last administrator: true of every run of uninterrupted routes (`Roles.AdminRemains`). Where
  handlers are caught between their reads or before their write, `Roles.OverlapKeepsAdminIff` (if and only if none of
  them is to dismiss a member of the tenant, or to give one another role that exists or can be created) and
  `Roles.AnyStateCanLose`; `Roles.TwoChecksRace` and `Roles.LateRoleRace` are runs.
- The daily cap is a cap: `Overshoot.BoundedOvershoot` bounds the excess, `Overshoot.OvershootIsTight` reaches it.
- A limiter that forgets idle buckets: sweeping changes no answer (`LoginLimiter.SweptRefinesFree`); an eviction
  changes none on any later trace if and only if the evicted bucket is full again, or no bucket ever holds a whole
  token (`LoginLimiter.EvictionIsExactIff`); `LoginLimiter.FloodEvicts` reaches one that does.
- A limiter's rate: at most max + span * refill without evictions (`LoginLimiter.CalmRate`), and once max more for every
  eviction of the key's own bucket in general (`LoginLimiter.RateBound`).
- The lease log says released only of leases that a script released: true of uninterrupted calls
  (`QuotaPlane.LogIsOrderly`); in general the entry is false if and only if the rollback found its lease gone from the
  set (`LeaseLog.LogIsOrderly`), which no rollback before the end of its lease does (`LeaseLog.PromptLogIsTrue`);
  `LeaseLog.LateRollback` is a run.
- An event is posted at most as often as the limit says: `Outbox.PostsAreBounded` (once more for every post that was
  sent when the worker was cancelled), with the run in `Outbox.CutPostRepeats`.

## Model

| member | source | states |
|---|---|---|
| RpmWindow.RpmCache.constructor | fusion_identity/cache.py:77-82 | a new cache holds no window |
| RpmWindow.RpmCache.CheckRpm | fusion_identity/cache.py:202-222 | one call takes exactly one script step on its tenant's key and leaves all others; a limit of 0 or less never touches the window |
| RpmWindow.NewLifeIsLate | fusion_identity/cache.py:38-40 | a key that starts afresh does so at least 60 s after the lifetime before it started |
| RpmWindow.StepInNewLife | fusion_identity/cache.py:28-42 | an admission that finds the key gone or empty keeps the invariant of all traces |
| RpmWindow.StepInSameLife | fusion_identity/cache.py:28-42 | a call on a key that still holds requests keeps it |
| RpmWindow.RunKeepsInv | fusion_identity/cache.py:28-42 | on every trace the key holds exactly what its lifetime admitted since the last trim, and lifetimes form an ordered chain |
| RpmWindow.CallAnswers | fusion_identity/cache.py:34-42 | the remaining count of a call is the limit less the requests that the present lifetime has in the last 60 s, the call itself included; a refused call reports 0, adds nothing, and found the window full |
| RpmWindow.RateBound | fusion_identity/cache.py:28-42 | in every window each lifetime admitted at most the limit, lifetimes start 60 s apart, all together admitted at most twice the limit, and more than the limit only across an expiry that cut a lifetime short |
| RpmWindow.BurstDoubles | fusion_identity/cache.py:38-40 | for every limit of at least 2 a legal trace puts exactly twice the limit into one window |
| RpmWindow.RunKeepsSingle | fusion_identity/cache.py:28-42 | with a limit of 1 the lifetimes hold single admissions that leave the window before the next one |
| RpmWindow.WindowExactIff | fusion_identity/cache.py:26-42 | the window holds at most the limit on every trace if and only if the limit is 1 |
| LeaseSet.ConcurrencyManager.constructor | fusion_identity/concurrency.py:53-57 | no leases at first |
| LeaseSet.ConcurrencyManager.DropEnded | fusion_identity/concurrency.py:22-26 | the loop over ended leases and the range removal leave exactly the running ones and drop the ended ones' markers |
| LeaseSet.ConcurrencyManager.TryAcquire | fusion_identity/concurrency.py:73-95 | one acquire step on the tenant's set, none at all for a limit of 0 or less; None exactly when the script returned 0 |
| LeaseSet.ConcurrencyManager.ReleaseLease | fusion_identity/concurrency.py:40-49 | one release step; -1 and no removal for a lease that is not in the set |
| LeaseSet.ConcurrencyManager.CountActive | fusion_identity/concurrency.py:118-123 | removes what has ended by the first call and counts what is in the set at the second |
| LeaseSet.KeysEnd | fusion_identity/concurrency.py:32-34 | set and markers are there until the millisecond before their ends |
| LeaseSet.AcquireAdds | fusion_identity/concurrency.py:22-35 | an acquire keeps what is running, and adds exactly the new lease if and only if there is room for it |
| LeaseSet.AcquireCount | fusion_identity/concurrency.py:28-35 | in every run a successful acquire reports the live leases, its own included, which is at most its limit; the others are as before |
| LeaseSet.ReleaseUndoes | fusion_identity/concurrency.py:40-49 | a release in the instant of its acquire restores exactly what was running |
| LeaseSet.StepRunsScript | fusion_identity/concurrency.py:13-49 | the bookkeeping of the runs leaves the set exactly as the scripts do |
| LeaseSet.StepKeeps | fusion_identity/concurrency.py:13-49 | every script keeps, for every id, that the set holds it exactly while it is held, that the key outlives it, that only ended leases are taken by a script or lost with the key, and that markers match running leases |
| LeaseSet.RunKeeps | fusion_identity/concurrency.py:13-49 | the same over every run |
| LeaseSet.LiveIsHeld | fusion_identity/concurrency.py:22-34 | at any instant until the next step Redis holds exactly the leases that were acquired, not released and not ended |
| LeaseSet.LeaseSafety | fusion_identity/concurrency.py:13-49 | in every run with limits up to L there are never more than L live leases, the end of the set key loses none, and each has its marker |
| LeaseSet.HeldIsSet | fusion_identity/concurrency.py:13-49 | the held leases are the members of the set; reaped and lost ones had ended |
| LeaseSet.Conservation | fusion_identity/concurrency.py:13-49 | acquired = still in the set + released + reaped + lost with the key, and only ended leases are reaped or lost |
| LeaseSet.ReleasedOnce | fusion_identity/concurrency.py:97-116 | in every run a lease is released successfully once if it ends up released and was not before, and never otherwise |
| LeaseSet.ReleaseCount | fusion_identity/concurrency.py:40-49 | a release reports the live leases plus those that ended and nobody has dropped yet |
| LeaseSet.ActiveCount | fusion_identity/concurrency.py:122-123 | whatever ran in between, the count is the live leases plus those that ended since they were last dropped, and exact if and only if there are none of these |
| LeaseSet.TrimmedCount | fusion_identity/concurrency.py:118-123 | so it is exact when both calls fall into one second with nothing in between |
| LeaseSet.RefusedIffFull | fusion_identity/concurrency.py:28-31 | an acquire is refused if and only if the live leases already fill its limit |
| Servicer.IdentityServicer.constructor | fusion_identity/grpc_servicer.py:93-96 | counters and lease log start empty |
| Servicer.IdentityServicer.ReserveDailyQuota | fusion_identity/cache.py:12-24 | passes exactly up to and including the cap, adds nothing, returns what is left, touches no other tenant |
| Servicer.IdentityServicer.Meter | fusion_identity/grpc_servicer.py:238-285 | the end of the pipeline as specified: the window is asked only under a positive limit, a refusal gives the lease back and logs it |
| Servicer.IdentityServicer.AuthorizeAndAcquire | fusion_identity/grpc_servicer.py:122-287 | the whole pipeline as specified, gate by gate, on the request's tenant, and nothing on any other; Servicer.GrantedIff and Servicer.RefusedFor say when and what it answers |
| Servicer.IdentityServicer.GiveBack | fusion_identity/grpc_servicer.py:299-307 | releases in the tenant's set and logs exactly if the lease was there |
| Servicer.IdentityServicer.ReleaseLease | fusion_identity/grpc_servicer.py:289-317 | a lease that does not belong to the tenant changes nothing; else success exactly if it was still held |
| Servicer.IdentityServicer.RecordTokenUsage | fusion_identity/cache.py:185-193 | today's counter grows by the tokens, no other |
| Servicer.IdentityServicer.ReportUsage | fusion_identity/grpc_servicer.py:319-377 | tokens count only if positive and taken by the ledger, the lease goes back only on request, the remainder is what the counter leaves of the limit |
| Servicer.WindowAfter | fusion_identity/cache.py:28-42 | a second look in the same instant sees the first one's window, with its request if it was admitted |
| Servicer.MeteredKeeps | fusion_identity/grpc_servicer.py:238-285 | with the lease just taken, a refusal by the window restores the leases as before the acquire |
| Servicer.EnteredKeeps | fusion_identity/grpc_servicer.py:229-285 | from the lease gate on the pipeline is all or nothing, and grants exactly when leases and window have room |
| Servicer.GrantAllows | fusion_identity/grpc_servicer.py:259-265 | a grant is for its own lease and allots as many tokens as are left of the day, up to 4096, and 4096 if nothing is left |
| Servicer.AllOrNothing | fusion_identity/grpc_servicer.py:122-285 | no authorization moves a counter; a refusal leaves the running leases as they were and holds none of its own; only the rate-limit refusal reaches the window and leaves it as full as it was; a grant adds exactly its own lease, one log entry and at most one request |
| Servicer.GrantedIff | fusion_identity/grpc_servicer.py:122-285 | a request is granted if and only if key, tenant, module and model are entitled, the daily limit is positive and not passed, and leases and window have room; it then gets its own lease and exactly the smaller of 4096 and what is left of the day, or 4096 when the counter is at the limit |
| Servicer.RefusedFor | fusion_identity/grpc_servicer.py:122-257 | each of the seven refusal codes is given if and only if its own check is the first in the order of the handler that fails |
| Servicer.LeaseHasOneTenant | fusion_identity/grpc_servicer.py:88-89 | a lease made for a tenant belongs to it, and no lease belongs to two tenants |
| QuotaPlane.ScriptsAgree | fusion_identity/grpc_servicer.py:122-354 | the lease scripts attributed to a call leave the set as the call does |
| QuotaPlane.AllowanceNoted | fusion_identity/grpc_servicer.py:218-265 | an authorization records an allowance exactly if it is granted, for its own lease: as many tokens as were left of the day when it passed the daily gate, up to 4096, and 4096 if nothing was, also if it waited since |
| QuotaPlane.WithoutOne | fusion_identity/grpc_servicer.py:218-229 | an authorization that goes on leaves the others that wait in their order |
| QuotaPlane.StoryGrows | fusion_identity/concurrency.py:13-49 | a script adds to a lease's story its acquire, its one release, or nothing |
| QuotaPlane.LogTells | fusion_identity/grpc_servicer.py:239-250 | a call logs exactly what its scripts did, on every path |
| QuotaPlane.StepKeeps | fusion_identity/grpc_servicer.py:122-354 | every call keeps the lease invariant and a log that tells every lease's story |
| QuotaPlane.RunKeeps | fusion_identity/grpc_servicer.py:122-354 | the same over every run |
| QuotaPlane.LogIsOrderly | fusion_identity/grpc_servicer.py:239-352 | in every run of uninterrupted calls the log says about a lease nothing, its acquire, or its acquire and then one release, and the last exactly for released leases |
| LeaseLog.FateMoves | fusion_identity/concurrency.py:13-49 | what each script does to the fate of each lease: acquired at most once, released only by a successful release while held, never held again |
| LeaseLog.AcquiringIsEntered | fusion_identity/grpc_servicer.py:229-250 | with nothing in between, the steps of an authorization leave leases and log as the pipeline does, rollback included |
| LeaseLog.FreeIsRelease | fusion_identity/grpc_servicer.py:299-307 | and so do the steps of a release |
| LeaseLog.ScriptTells | fusion_identity/grpc_servicer.py:229-307 | every script, called by any handler, keeps what the log and the handlers say about every lease |
| LeaseLog.EntryTells | fusion_identity/grpc_servicer.py:239-352 | so does every log entry and every decision in between |
| LeaseLog.FreeTakesOut | fusion_identity/grpc_servicer.py:299-307 | a release succeeds only for a lease that was handed out, so never while its own handler may still roll it back |
| LeaseLog.StepKeeps | fusion_identity/grpc_servicer.py:229-354 | every step of every handler keeps the lease invariant and a log in step with the handlers |
| LeaseLog.RunKeeps | fusion_identity/grpc_servicer.py:229-354 | the same over every interleaving |
| LeaseLog.LogIsOrderly | fusion_identity/grpc_servicer.py:229-354 | in every interleaving the log says about a lease nothing, its acquire, or its acquire and then one release; it says released only of leases no longer held, and the entry is false if and only if the rollback found its lease gone from the set |
| LeaseLog.MissIsAnswer | fusion_identity/concurrency.py:40-49 | that is when the release script answers below 0, which the handler ignores |
| LeaseLog.PromptLogIsTrue | fusion_identity/grpc_servicer.py:247-250 | a run whose rollbacks come before their leases end has a truthful log |
| LeaseLog.LateRollback | fusion_identity/grpc_servicer.py:247-250 | a run in which the log says released of a lease that no script released |
| Overshoot.AuthCounts | fusion_identity/grpc_servicer.py:218-241 | an authorization moves no counter, and adds a lease only while the counter is within the cap |
| Overshoot.EnterCounts | fusion_identity/grpc_servicer.py:229-241 | one that waited between the gates adds at most its own lease, whatever the counter says by then |
| Overshoot.GiveCounts | fusion_identity/grpc_servicer.py:289-317 | giving back adds no tokens and no lease |
| Overshoot.ReportCounts | fusion_identity/grpc_servicer.py:329-354 | a report counts its tokens on the day of the report and takes its lease away |
| Overshoot.WithinLater | fusion_identity/cache.py:100-102 | the bound survives waiting and the change of day |
| Overshoot.ModestStep | fusion_identity/grpc_servicer.py:263-265 | no allowance ever granted is over 4096 |
| Overshoot.StepWithin | fusion_identity/grpc_servicer.py:218-354 | every call of callers who report at most the allowance of their lease keeps counter + 4096 * (leases out + waiting) under the roof |
| Overshoot.RunWithin | fusion_identity/grpc_servicer.py:218-354 | the same over every run |
| Overshoot.BoundedOvershoot | fusion_identity/grpc_servicer.py:218-354 | in every run with a cap, a limit L and at most k authorizations between the two gates, every day's counter is at most cap + 4096 * (L + k), outstanding leases included; k is 0 for atomic authorizations |
| Overshoot.AskGrants | fusion_identity/grpc_servicer.py:218-265 | with a counter up to the cap, the cap included, and a free lease, the next request is granted, with 4096 tokens if the cap is reached |
| Overshoot.QueueWaits | fusion_identity/grpc_servicer.py:222-227 | a counter exactly at the cap still lets a request pass the daily gate, and it waits there |
| Overshoot.ComeGrants | fusion_identity/grpc_servicer.py:229-265 | one that passed it gets its lease, with the allowance of that moment, whatever the counter says by then |
| Overshoot.OvershootIsTight | fusion_identity/grpc_servicer.py:259-265 | for every cap, limit L and k some such run, in which every report stays within the allowance its lease was granted, reaches cap + 4096 * (L + k) exactly |
| TenantCache.AuthPlane.constructor | fusion_identity/cache.py:77-82 | an empty cache before a store |
| TenantCache.AuthPlane.Resolve | fusion_identity/grpc_servicer.py:127-169 | a live entry wins, else the store's answer, which is cached for 300 s if there is one |
| TenantCache.AuthPlane.PutQuota | fusion_identity/routes/quotas.py:37-61 | an unknown tenant changes nothing; else the given fields replace the old ones and the loop drops exactly the entries of the tenant's unrevoked keys |
| TenantCache.AuthPlane.RevokeKey | fusion_identity/routes/api_keys.py:75-101 | revokes the key and drops its entry |
| TenantCache.AuthPlane.UpdateTenant | fusion_identity/routes/admin.py:115-138 | an unknown tenant changes nothing; else status and quota fields change in the store, and no key entry is dropped |
| TenantCache.AgreesResolves | fusion_identity/grpc_servicer.py:127-169 | over an agreeing cache every answer is the store's |
| TenantCache.LookupIs | fusion_identity/grpc_servicer.py:40-54 | a key resolves if and only if it exists unrevoked in a tenant that exists, to that tenant, its status and each quota field, with the defaults 2, 50000 and 0 and empty lists only for absent ones |
| TenantCache.ChangesAre | fusion_identity/routes/quotas.py:37-61 | what each change writes, field by field, and that it leaves all other tenants, fields and keys alone |
| TenantCache.UninterruptedFill | fusion_identity/grpc_servicer.py:138-169 | the reads and the write of a fill with nothing in between cache the store's answer for 300 s |
| TenantCache.PutQuotaTakesEffect | fusion_identity/routes/quotas.py:48-61 | after an uninterrupted change the next answer for any unrevoked key of the tenant is the uncached one, and an agreeing cache still agrees |
| TenantCache.RevocationTakesEffect | fusion_identity/routes/api_keys.py:81-87 | after a revocation the key resolves to nothing |
| TenantCache.UpdateTakesEffectIff | fusion_identity/routes/admin.py:127-138 | such an update takes effect at once for a key if and only if the key has no live entry or the update only repeats what is in force |
| TenantCache.DisabledStillActive | fusion_identity/deps.py:223-231 | a run after which a disabled tenant passes for active until the entry ends |
| TenantCache.ZeroQuotaStops | fusion_identity/grpc_servicer.py:40-50 | a quota of 0 refuses every request and is not taken for an absent one, which has its default; a rate limit of 0 never reaches the window; a disabled tenant is refused |
| TenantCache.EntryKeeps | fusion_identity/grpc_servicer.py:157-169 | the write of a fill makes an entry of parts that were each read from the store, the first of them at most the lag ago |
| TenantCache.FillKeeps | fusion_identity/grpc_servicer.py:138-157 | each read of a fill, tenant and quota in either order, adds what the store holds then and keeps what was read before |
| TenantCache.StepKeeps | fusion_identity/grpc_servicer.py:127-169 | every step keeps that each part of an entry or a fill, the key, the status and the quota, is what a version of the store held when it was read |
| TenantCache.RunKeeps | fusion_identity/grpc_servicer.py:127-169 | the same over every run |
| TenantCache.HitIsRecent | fusion_identity/cache.py:104-119 | in every run, each part of a hit, the key, the status and the limits, is what the store held at an instant less than 300 s ago, plus the longest time a fill takes from its first read to its write; with uninterrupted fills at one instant, less than 300 s ago |
| TenantCache.FillIsOver | fusion_identity/grpc_servicer.py:138-169 | a fill ends with its write, or when its tenant is gone, and touches no other |
| TenantCache.StaysSettled | fusion_identity/grpc_servicer.py:138-169 | without old fills a dropped entry can only come back with the store's present answer |
| TenantCache.FillEnds | fusion_identity/grpc_servicer.py:138-169 | a fill can always run to its end, and then the cache holds what it read |
| TenantCache.DropSettlesIff | fusion_identity/deps.py:234-245 | after an invalidation, until the store changes, every hit is the uncached answer in every run if and only if no fill under way has read something that has changed since |
| TenantCache.PutQuotaRace | fusion_identity/routes/quotas.py:48-61 | for every change of the daily limit some run of a fill, the change, its invalidation and the fill's write leaves the old limit in the cache |
| RefreshFamily.RefreshStore.constructor | fusion_identity/store.py:1414-1440 | no tokens at first |
| RefreshFamily.RefreshStore.InsertRefreshToken | fusion_identity/store.py:1414-1440 | adds an active token |
| RefreshFamily.RefreshStore.RotateRefreshToken | fusion_identity/store.py:1441-1450 | compare-and-set: succeeds and links exactly if the token is active |
| RefreshFamily.RefreshStore.RevokeTokens | fusion_identity/store.py:1452-1458 | revokes exactly what the scope covers and counts what it changed |
| RefreshFamily.RevokesExactly | fusion_identity/store.py:1452-1458 | a token is revoked if and only if it is of the family, user or tenant meant, keeps everything else, and counts if it was not revoked before |
| RefreshFamily.RefreshStore.Refresh | fusion_identity/auth.py:692-792 | the handler's outcomes and effect, branch by branch |
| RefreshFamily.StepKeeps | fusion_identity/auth.py:692-792 | every store call of every handler keeps the family invariant |
| RefreshFamily.RunKeeps | fusion_identity/auth.py:692-792 | the same over every interleaving |
| RefreshFamily.ReachableInv | fusion_identity/auth.py:692-792 | it holds in every reachable state |
| RefreshFamily.AtMostOne | fusion_identity/store.py:1441-1450 | active tokens plus rotations in flight are at most one per family |
| RefreshFamily.ChainCoversFamily | fusion_identity/auth.py:747-782 | a family's tokens are its chain, without a successor still to be inserted |
| RefreshFamily.FamilyIsOneChain | fusion_identity/auth.py:692-792 | in every reachable state the replacement links of a family form one chain of distinct tokens that ends in the unreplaced one |
| RefreshFamily.RunLater | fusion_identity/store.py:1441-1458 | status only moves from active to rotated to revoked, links are never changed, tokens never vanish |
| RefreshFamily.SpentStaysSpent | fusion_identity/auth.py:701-713 | a token that is no longer active is never exchanged again |
| RefreshFamily.ExchangedOnce | fusion_identity/auth.py:692-792 | whatever interleaves, a refresh token is exchanged at most once |
| RefreshFamily.RevokedForGood | fusion_identity/store.py:1494-1508 | from every reachable state with no call in flight: after a revocation of a family, a user or a tenant, no token of a family it is meant for is ever active again, whether stored by then or minted later |
| RefreshFamily.DeadRun | fusion_identity/auth.py:747-782 | a family without active token and without rotation in flight stays so |
| RefreshFamily.ReuseIsFinalIff | fusion_identity/auth.py:701-713 | the revocation on reuse is final in every continuation if and only if no rotation of the family was in flight |
| RefreshFamily.ReuseRace | fusion_identity/auth.py:747-782 | a run in which the family has an active token after the revocation |
| RefreshFamily.HoldersRun | fusion_identity/auth.py:747-782 | over every interleaving records, calls in flight and families agree on their tenant and user |
| RefreshFamily.RevokedIsDead | fusion_identity/store.py:1452-1458 | a revocation leaves every family it is meant for without active token and without rotation in flight, if none was |
| RefreshFamily.RevocationIsFinalIff | fusion_identity/store.py:1494-1508 | for every scope: the revocation is final, in every continuation and for every family it is meant for, if and only if no rotation of such a family was between its compare-and-set and its insert |
| RefreshFamily.StoredIsSpent | fusion_identity/store.py:1452-1458 | whatever is in flight, a token that was stored when the revocation came is never exchanged again |
| RefreshFamily.RevocationRace | fusion_identity/auth.py:747-782 | for a family, a user and a tenant a run in which the successor becomes active after the revocation |
| RefreshFamily.UninterruptedIsHandler | fusion_identity/auth.py:692-792 | the steps of a call that nothing interrupts do what the handler does |
| RefreshFamily.ReuseEndsFamily | fusion_identity/auth.py:701-713 | uninterrupted, reuse ends the family for the rest of every run |
| JtiLedger.Ledgers.constructor | fusion_identity/store.py:1386-1412 | both ledgers start empty |
| JtiLedger.Ledgers.RecordIssuedJti | fusion_identity/store.py:1460-1468 | sweeps, then records the id for 8 h |
| JtiLedger.Ledgers.SweepIssuedJtis | fusion_identity/store.py:1470-1476 | removes exactly the expired entries |
| JtiLedger.Ledgers.RevokeJti | fusion_identity/store.py:1386-1404 | records the revocation until the given expiry, else for 24 h |
| JtiLedger.Ledgers.IsJtiRevoked | fusion_identity/store.py:1405-1412 | sweeps, and answers by the unexpired entry |
| JtiLedger.Ledgers.RevokeUserIssuedJtis | fusion_identity/store.py:1510-1543 | revokes exactly the user's unexpired, not yet revoked ids of the tenant, and returns how many |
| JtiLedger.StepKeeps | fusion_identity/store.py:1386-1543 | every step keeps that ledger entries of short-lived tokens outlive the tokens |
| JtiLedger.RunKeeps | fusion_identity/store.py:1386-1543 | the same over every run |
| JtiLedger.EightHoursIsShort | fusion_identity/jwt_utils.py:29-72 | a lifetime of at most 8 h is short in this sense |
| JtiLedger.GoneForGood | fusion_identity/store.py:1405-1412 | a revoked token is refused at all later times of every run, and its entry is dropped only once it has expired |
| JtiLedger.GoneIsRefused | fusion_identity/auth.py:215-218 | the same as one statement over all runs |
| JtiLedger.OwnerIs | fusion_identity/store.py:1478-1492 | in every run a token id has its own tenant as owner while it is revoked or was recorded at most 8 h ago, and none otherwise |
| JtiLedger.LogoutIsFinalIff | fusion_identity/auth.py:824-831 | logging out is final if and only if the token expires within 24 h: a later revocation by an administrator cuts a longer entry short |
| JtiLedger.AdminRevokeIsFinalIff | fusion_identity/auth.py:794-822 | an administrator's revocation is final if and only if the token expires within 24 h |
| JtiLedger.AdminRevokedComesBack | fusion_identity/auth.py:813-818 | an access token of two days, revoked by an administrator in its first second, is accepted again after a day |
| JtiLedger.DeletionIsFinalIff | fusion_identity/auth.py:611-652 | account deletion refuses a token for good if and only if it has expired, or does not outlive its issued entry, or was revoked before and outlives neither that entry nor the next day |
| JtiLedger.DeletionCoversShortTokens | fusion_identity/auth.py:611-652 | with lifetimes of at most 8 h, after the deletion no earlier token of that user and tenant is ever accepted |
| JtiLedger.DefaultSessionComesBack | fusion_identity/auth.py:532-533 | a default 12 h session token covered by a deletion is accepted again after 8 h |
| AccountDeletion.RunKeeps | fusion_identity/auth.py:692-792 | over every interleaving of deletions, logins and refreshes the invariants of the rotation machine hold |
| AccountDeletion.SessionsEnd | fusion_identity/store.py:1494-1508 | revoking the sessions ends everything of the user that is not on its way |
| AccountDeletion.EndedRun | fusion_identity/auth.py:692-792 | and then nothing of the user works in the tenant in any continuation without a new login |
| AccountDeletion.RecordsThenStores | fusion_identity/auth.py:774-782 | a refresh records its access token once and only then stores the refresh token |
| AccountDeletion.DeletionSpares | fusion_identity/auth.py:628-631 | the two steps revoke the access tokens of the user in the tenant, and the refresh tokens of the user, and change nothing else |
| AccountDeletion.DeletionIsFinalIff | fusion_identity/auth.py:628-631 | once a deletion has revoked the sessions, no access or refresh token of the user works in the tenant in any continuation without a new login, if and only if no access token was recorded since the ids were revoked, no login is past its checks and no refresh past its compare-and-set |
| AccountDeletion.UninterruptedDeletionIff | fusion_identity/auth.py:611-652 | an uninterrupted deletion is final if and only if no login and no refresh of the user is under way |
| AccountDeletion.TokenSurvives | fusion_identity/auth.py:774-775 | a run in which a refresh records its access token in the middle of the deletion and the token works after it |
| CanonicalJson.EscapeUnique | fusion_identity/store.py:257-259 | escaped characters read back in one way, surrogate pairs included |
| CanonicalJson.CharsUnique | fusion_identity/store.py:257-259 | so do strings |
| CanonicalJson.NumberUnique | fusion_identity/store.py:257-259 | so do numbers before a delimiter |
| CanonicalJson.TextUnique | fusion_identity/store.py:257-259 | two well-formed values with the same text, whatever follows, are the same value |
| CanonicalJson.ShortEscapesAre | fusion_identity/store.py:257-259 | the short escapes, and characters that stand for themselves |
| CanonicalJson.PairEscapeIs | fusion_identity/store.py:257-259 | a character beyond the basic plane as its surrogate pair |
| CanonicalJson.ObjectTextIs | fusion_identity/store.py:257-259 | objects without spaces |
| AuditChain.SplitAtBrace | fusion_identity/store.py:257-259 | a previous hash and the JSON text after it split in one way, because no previous hash contains a brace |
| AuditChain.FieldsInjective | fusion_identity/store.py:262-281 | the JSON text determines every chained field |
| AuditChain.PayloadIs | fusion_identity/store.py:257-281 | what is hashed: the previous hash and then the object of the eight chained fields in the order of their names |
| AuditChain.OfIff | fusion_identity/store.py:1364-1366 | a tenant's rows are exactly the rows of the log that name it |
| AuditChain.LinkUnique | fusion_identity/store.py:257-259 | a chain hash determines the hash before it and every chained field |
| AuditChain.TamperEvident | fusion_identity/store.py:1363-1384 | two lists of rows that both verify and end in the same hash agree in length, fields and hashes |
| AuditChain.AuditLog.constructor | fusion_identity/store.py:1302-1337 | the log starts empty |
| AuditChain.AuditLog.AppendAudit | fusion_identity/store.py:1302-1337 | appends the next record of the history, keeps the tail index and evicts the oldest row beyond the cap |
| AuditChain.AuditLog.VerifyAuditChain | fusion_identity/store.py:1363-1384 | the loop computes the verdict of the specification on the tenant's retained rows, which are in id order |
| AuditChain.LogGrows | fusion_identity/store.py:1302-1337 | an append keeps the log, the tail index and the counter consistent with the history |
| AuditChain.IndexGrows | fusion_identity/store.py:1318-1331 | the tail index is always the chain hash of each tenant's latest append |
| AuditChain.RestVerifies | fusion_identity/store.py:1363-1384 | from any cut on, a tenant's rows verify against the hash at the cut |
| AuditChain.WrongStartBreaks | fusion_identity/store.py:1366 | rows chained to another hash break at the first one |
| AuditChain.CutBreaks | fusion_identity/store.py:1335-1336 | after an eviction of some of a tenant's rows the rest breaks at its first |
| AuditChain.ExactVerdict | fusion_identity/store.py:1363-1384 | on every reachable log: intact if and only if nothing of the tenant is retained or its first record still is, otherwise broken at its first retained id |
| AuditChain.KeptInOrder | fusion_identity/store.py:1364-1366 | a tenant's retained rows are in id order, so sorting them changes nothing |
| AuditChain.OtherAppendKeeps | fusion_identity/store.py:1332-1337 | what an append of another tenant does to a tenant's retained rows |
| AuditChain.OtherAppendVerdictIff | fusion_identity/store.py:1332-1337 | it leaves the tenant's verdict alone if and only if it evicts none of its rows or the only one it ever had |
| AuditChain.FullLogBreaks | fusion_identity/store.py:1335-1336 | a full log in which another tenant's append turns a tenant's verdict from intact to broken |
| AuditQuery.NewestFirstDescends | fusion_identity/store.py:1339-1361 | newest first means strictly falling ids |
| AuditQuery.BelowRow | fusion_identity/store.py:1339-1361 | the page below a row's id carries on right after that row |
| AuditQuery.ListAudit | fusion_identity/store.py:1339-1361 | a page is newest first and within the limit, every row on it is of the tenant, within the times and below the cursor, and every such row of the log is on it unless it is full of newer ones |
| AuditQuery.BizMatch | fusion_identity/routes/audit.py:156-174 | accepts a row if and only if its detail is an object whose source is business and each filter that is given fits its own field: actor, end of the action, resource, trace id |
| AuditQuery.ScanPage | fusion_identity/routes/audit.py:156-209 | collects the matches of a page and stops at the limit |
| AuditQuery.LaterBelow | fusion_identity/store.py:1339-1361 | below a row that was in the log at the first page, a later log holds exactly what is left of that log |
| AuditQuery.NextPage | fusion_identity/routes/audit.py:193-197 | a page read later carries on right after the last row, up to what is left |
| AuditQuery.BizQuery | fusion_identity/routes/audit.py:177-209 | whatever is appended and evicted between the pages: every row returned is in range in the first page's log and fits the filter, newest first and within the limit; unless truncated, every such row that was not evicted before the last page is returned, or so many newer ones are; if nothing is evicted the answer is the first matches among the newest 20000 rows in range, and truncated exactly when more than 19000 are in range and too few of those match |
| AuditQuery.PagedIsComplete | fusion_identity/routes/audit.py:177-209 | unless it says truncated, that is every row of the whole ledger that is in range and fits the filter, up to the limit, and no other; if it does, it has seen at least 19001 rows |
| AuditQuery.AppendedInOrder | fusion_identity/store.py:1302-1337 | a log that only appends made is in id order, before and after eviction |
| AuditQuery.HistoryMoves | fusion_identity/store.py:1302-1337 | a log that only appends made moves on in this way |
| LoginLimiter.LoginRateLimiter.constructor | fusion_identity/ratelimit.py:23-27 | an empty table and the refill rate max / window |
| LoginLimiter.LoginRateLimiter.SweepStale | fusion_identity/ratelimit.py:86-92 | removes exactly the buckets idle for more than two windows |
| LoginLimiter.LoginRateLimiter.FindStalest | fusion_identity/ratelimit.py:65 | a bucket with the least last use |
| LoginLimiter.LoginRateLimiter.MakeRoom | fusion_identity/ratelimit.py:58-69 | a new key in a full table sweeps first, and evicts a stalest bucket exactly if that was not enough |
| LoginLimiter.LoginRateLimiter.Consume | fusion_identity/ratelimit.py:49-84 | refills, draws one token if there is one, answers accordingly, and keeps the table within its cap |
| LoginLimiter.LoginRateLimiter.Allow | fusion_identity/ratelimit.py:37-47 | the keys in order up to the first refusal, each with the bucket left by those before and by the evictions made for them; an eviction happens only for a new key in a table that is full after its sweep, and takes one stalest bucket; a limit of 0 or less always allows and changes nothing; the table never exceeds 8192 |
| LoginLimiter.StaysBounded | fusion_identity/ratelimit.py:62-69 | one consumption keeps the table within its cap |
| LoginLimiter.EvictionSpares | fusion_identity/ratelimit.py:58-69 | making room for a key leaves that key's own tokens alone, and evicts nothing in a table that is not crowded |
| LoginLimiter.StaleIsFull | fusion_identity/ratelimit.py:87 | a bucket idle for over two windows is full again |
| LoginLimiter.SimConsume | fusion_identity/ratelimit.py:49-84 | swept and unswept tables that differ only in full buckets answer alike and stay so |
| LoginLimiter.SimAllow | fusion_identity/ratelimit.py:37-47 | the same for a whole request |
| LoginLimiter.SweptRefinesFree | fusion_identity/ratelimit.py:37-92 | on every trace of requests and sweeps without a forced eviction all answers are those of a limiter that never forgets |
| LoginLimiter.FreeRate | fusion_identity/ratelimit.py:70-84 | that limiter lets through at most what the bucket holds and earns |
| LoginLimiter.CalmRate | fusion_identity/ratelimit.py:37-92 | hence on every such trace a key lets through at most max + span * max / window, from any state and in any span |
| LoginLimiter.ConsumeDraws | fusion_identity/ratelimit.py:49-84 | a consumption takes one token from its key if it is let through, and only an eviction of a key's own bucket gives that key tokens, at most max |
| LoginLimiter.LossesNone | fusion_identity/ratelimit.py:58-69 | the evictions counted against a key are none if and only if no visit evicted it |
| LoginLimiter.RateBound | fusion_identity/ratelimit.py:37-92 | on every trace, whatever is swept and evicted, a key lets through at most (evictions of its bucket + 1) * max + span * max / window |
| LoginLimiter.EvictionIsExactIff | fusion_identity/ratelimit.py:64-67 | a forced eviction changes no answer on any later trace if and only if the evicted bucket is full again or no bucket ever holds a whole token |
| LoginLimiter.Distinguish | fusion_identity/ratelimit.py:70-84 | two tables in which a key has different tokens answer some trace differently |
| LoginLimiter.NeverAdmits | fusion_identity/ratelimit.py:76-84 | with a maximum below 1 every table gives the same answers |
| LoginLimiter.FloodEvicts | fusion_identity/ratelimit.py:58-69 | 8192 keys in one instant fill the table, the next key evicts one of them, and some later trace is answered differently |
| KeyRing.DictRoundTripIff | fusion_identity/jwks.py:27-46 | a key comes back from its JSON form if and only if it has an id and a public half |
| KeyRing.KeyRing.constructor | fusion_identity/jwks.py:182-225 | the ring of a readable file, else the configured key, with the external keys |
| KeyRing.KeyRing.Persist | fusion_identity/jwks.py:122-144 | the file is replaced as a whole or stays as it was |
| KeyRing.KeyRing.Rotate | fusion_identity/jwks.py:270-290 | retires the current key, installs the new one, persists |
| KeyRing.KeyRing.Prune | fusion_identity/jwks.py:292-310 | the loop drops exactly the retired keys created over a day ago, from list and index, and persists only if it dropped any |
| KeyRing.KeyRing.VerifyKeyFor | fusion_identity/jwks.py:256-268 | over a whole ring, which every reachable one is, it answers exactly with the public half of the current, retired or external key of that id, and with an error for a missing id or one that none of them has |
| KeyRing.KeptIff | fusion_identity/jwks.py:298-304 | a prune keeps exactly the retired keys created at most a day ago |
| KeyRing.RotateKeeps | fusion_identity/jwks.py:270-290 | a rotation keeps the ring whole |
| KeyRing.PruneKeeps | fusion_identity/jwks.py:292-310 | so does a prune |
| KeyRing.DictIs | fusion_identity/jwks.py:36-46 | which key an entry of the file stands for, defaults included |
| KeyRing.LoadedIff | fusion_identity/jwks.py:146-180 | a file loads if and only if it is for RS256 and its current key is usable, and then holds exactly its usable retired keys |
| KeyRing.IdlePruneSavesNothing | fusion_identity/jwks.py:292-310 | a prune that drops nothing leaves the file alone |
| KeyRing.LoadRestores | fusion_identity/jwks.py:122-180 | saving and loading a whole ring gives the same ring, index included |
| KeyRing.StepKeeps | fusion_identity/jwks.py:122-310 | rotations, prunes and restarts keep ring and file whole, failed writes included |
| KeyRing.RunKeeps | fusion_identity/jwks.py:122-310 | the same over every run |
| KeyRing.RingIsConsistent | fusion_identity/jwks.py:122-310 | in every run the index is exactly current, retired and external keys, each under its own id |
| KeyRing.BirthsKeep | fusion_identity/jwks.py:122-225 | whatever writes fail, ring and saved ring hold the latest copy of every key that was ever current under its id |
| KeyRing.RestartKeepsIff | fusion_identity/jwks.py:182-225 | a key that was ever current verifies after a restart if and only if the saved ring has it or, without one, it is the configured key |
| KeyRing.KeysVerifyForADayIff | fusion_identity/jwks.py:122-310 | in every run, failed writes and a missing file included, at every instant every key that was ever current verifies until a day after its creation if and only if each restart finds all such keys |
| KeyRing.KeysVerifyForADay | fusion_identity/jwks.py:122-310 | hence in every run whose writes succeed, restarts included, each of them verifies until then, and the current key always does |
| KeyRing.GraceFromRetirementIff | fusion_identity/jwks.py:299 | a key outlives every prune of the day after its retirement if and only if it was created no earlier than it was retired |
| KeyRing.RetiredAndGone | fusion_identity/jwks.py:270-310 | a key in use for over a day is pruned a second after its retirement |
| KeyRing.RotationIsLost | fusion_identity/jwks.py:122-144 | without a file, or when its write fails, a restart loses the key of a rotation ten seconds before |
| Outbox.EventStore.constructor | fusion_identity/store.py:1213-1234 | an empty outbox |
| Outbox.EventStore.AppendEvent | fusion_identity/store.py:1213-1234 | appends a pending event and evicts the oldest beyond the cap |
| Outbox.AppendedIs | fusion_identity/store.py:1213-1234 | a new event comes last, and exactly the oldest goes when there are 100000 already |
| Outbox.EventStore.PendingEvents | fusion_identity/store.py:1239-1240 | the oldest pending events up to the limit |
| Outbox.EventStore.MarkEvent | fusion_identity/store.py:1242-1250 | changes exactly the event with the id and says whether there is one |
| Outbox.WebhookWorker.constructor | fusion_identity/events.py:77-96 | keeps its store, attempt limit and batch size |
| Outbox.WebhookWorker.DeliverOne | fusion_identity/events.py:98-146 | one attempt: delivered on success, dead at the limit, else pending with one more attempt |
| Outbox.WebhookWorker.Tick | fusion_identity/events.py:148-163 | the batch in order until it ends or the worker is stopped |
| Outbox.StepKeeps | fusion_identity/events.py:98-163 | appends, takes, posts and stops keep that attempts are posts, below the limit while pending, and that the worker's copies are current |
| Outbox.RunKeeps | fusion_identity/events.py:98-163 | the same over every run |
| Outbox.PostsAreBounded | fusion_identity/events.py:137-146 | in every run an event is posted at most as often as the limit, and once more for every post cut off by a cancelled worker; delivered means a recorded success, dead that the limit was used up without one, and exactly that many posts |
| Outbox.PostsAddUp | fusion_identity/events.py:116-146 | posts are recorded attempts and cut-off posts |
| Outbox.CutPostRepeats | fusion_identity/events.py:180-187 | a run that posts an event twice though one attempt is allowed |
| Outbox.SettledForGood | fusion_identity/store.py:1242-1250 | delivered and dead are final in every run, whatever is evicted: the event is never posted again and no record of it ever says anything else |
| Outbox.SettledStaysThere | fusion_identity/store.py:1213-1234 | below the cap the record also stays in the outbox |
| Outbox.NoPostAfterSuccess | fusion_identity/events.py:129-130 | after a recorded success an event is never posted again, whatever is evicted |
| Outbox.PostPays | fusion_identity/events.py:116-146 | every post pays at least one owed attempt |
| Outbox.TickPays | fusion_identity/events.py:148-163 | an unstopped tick pays at least one for each event of its batch |
| Outbox.OutboxDrains | fusion_identity/events.py:148-163 | without new events, as many unstopped ticks as attempts are owed leave nothing pending, whatever the answers |
| Outbox.PostsTick | fusion_identity/events.py:148-163 | the posts of a batch, one by one, do what the loop of the tick does |
| Outbox.TicksRun | fusion_identity/events.py:148-163 | unstopped ticks of an idle worker, one after another, are a legal run |
| Outbox.RunDrains | fusion_identity/events.py:148-163 | from every reachable state with an idle worker, as many unstopped ticks as attempts are owed are a run without appends that leaves nothing pending, whatever the answers |
| KekSweep.SecretStore.constructor | fusion_identity/store.py:1691-1750 | holds the given records |
| KekSweep.SecretStore.EncryptSecret | fusion_identity/crypto.py:38-45 | seals under a new nonce, and what is sealed opens under the same key to the same text |
| KekSweep.SecretStore.ReencryptIdp | fusion_identity/routes/admin.py:405-424 | one iteration rewrites the record from the listed blob exactly if the previous key opens it and the record is still there |
| KekSweep.SecretStore.ReencryptMfa | fusion_identity/routes/admin.py:431-457 | one iteration upserts the factor from the listed record exactly if the previous key opens its secret |
| KekSweep.SecretStore.SweepIdps | fusion_identity/routes/admin.py:401-424 | every provider secret is re-sealed if the previous key opens it and left alone if not; migrated counts exactly the records that open, failed exactly those that do not, and none is skipped |
| KekSweep.SecretStore.SweepMfa | fusion_identity/routes/admin.py:426-457 | the same for factors, with enabled flags and enrolment times kept |
| KekSweep.SecretStore.Reencrypt | fusion_identity/routes/admin.py:382-479 | refused without a previous key and then nothing changes; else both sweeps, with both counts exact |
| KekSweep.DecryptIs | fusion_identity/crypto.py:65-92 | a stored text opens exactly to what was sealed, under the current key or a previous one that is given |
| KekSweep.WrapPreserves | fusion_identity/crypto.py:65-92 | what opened in the two-key window opens under the new key alone, to the same text, and nothing else does |
| KekSweep.SweepPreserves | fusion_identity/routes/admin.py:401-457 | so for every provider and factor, with all other fields kept |
| KekSweep.SweepTwice | fusion_identity/routes/admin.py:401-457 | a second sweep changes nothing, nonces included |
| KekSweep.WindowClosesCleanlyIff | fusion_identity/routes/admin.py:405-457 | dropping the previous key after the sweep loses no stored secret if and only if no application credential is still sealed under it |
| KekSweep.CredentialIsLost | fusion_identity/routes/admin.py:376-378 | a credential sealed under the previous key opens in the window and no longer once it closes |
| KekRuns.StepKeeps | fusion_identity/routes/admin.py:405-457 | every step among other handlers, unless an iteration comes too late, keeps every record as its last writer left it |
| KekRuns.LateShows | fusion_identity/routes/admin.py:405-457 | an iteration that comes too late shows at once |
| KekRuns.WritesShow | fusion_identity/store.py:1655-1757 | what each handler writes is what the record says afterwards, and nothing else changes |
| KekRuns.UnseenIff | fusion_identity/routes/admin.py:405-457 | over every run from any store, at every instant every record is there, and has text, flag and dates, as the last other handler left it if and only if no iteration came too late |
| KekRuns.NothingLeftBehindIff | fusion_identity/routes/admin.py:405-457 | for every run of the handler among others, from any store to the end of both its lists: during it every secret under the previous key is still to be rewritten, and from its end on none is stored in any continuation, if and only if no verification wrote one back past its iteration and none that has read one is under way |
| KekRuns.CoveredRun | fusion_identity/routes/admin.py:405-457 | during a run every secret under the previous key is still to be rewritten if and only if no verification wrote one back past its iteration |
| KekRuns.StaysCleanIff | fusion_identity/auth.py:928-940 | once nothing is stored under the previous key, that lasts in every continuation if and only if no verification under way has read such a blob |
| KekRuns.LastWriteSurvives | fusion_identity/crypto.py:65-92 | when no iteration was late and nothing was written back, at the end every record says, under the new key alone, what its last writer wrote |
| KekRuns.AloneSweeps | fusion_identity/routes/admin.py:405-457 | uninterrupted listings and iterations, from any store and in any order of the records, do what the two loops do |
| KekRuns.WriteIsLost | fusion_identity/routes/admin.py:405-424 | a run in which a provider secret written after the listing is replaced by the one before it |
| KekRuns.FactorIsBack | fusion_identity/routes/admin.py:446-451 | a run in which a factor deleted after the listing comes back |
| KekRuns.VerifyBringsBack | fusion_identity/auth.py:931-940 | a run in which a verification that read a factor before its iteration writes after it, and the secret opens under the previous key only |
| Roles.RoleStore.constructor | fusion_identity/store.py:582-596 | no members, roles or menus at first |
| Roles.RoleStore.AddMembership | fusion_identity/store.py:582-596 | refuses a role that does not resolve in the tenant, else sets the membership |
| Roles.RoleStore.CountByRole | fusion_identity/store.py:671-674 | counts the tenant's members with the role |
| Roles.RoleStore.RemoveRole | fusion_identity/store.py:765-779 | refuses built-in roles and roles in use, else removes the role with its menu row |
| Roles.RoleStore.PatchRole | fusion_identity/routes/members.py:118-149 | the route as specified: not one's own role, not the last administrator's |
| Roles.RoleStore.DeleteMember | fusion_identity/routes/members.py:233-258 | the route as specified: not oneself, not the last administrator |
| Roles.UniqueKeeps | fusion_identity/store.py:794 | deduplication keeps exactly the menus given, once each |
| Roles.UniqueInOrder | fusion_identity/store.py:794 | and keeps them in the order of their first occurrence |
| Roles.ValidIdIs | fusion_identity/store.py:172-176 | a role id has 1 to 64 characters of the pattern, the first a small letter or a digit, and may end in one line feed more |
| Roles.KnownToIs | fusion_identity/store.py:786-788 | a menu is known to a tenant if and only if it was registered for it or is one of the ten defaults |
| Roles.MembersAfter | fusion_identity/store.py:582-677 | every membership after every operation: the one it is about as stated, all others as they were |
| Roles.CustomAfter | fusion_identity/store.py:710-779 | every custom role after every operation: stored if it is new, well-formed and within 64, its write classes replaced by a valid change, removed if no member has it, else as it was |
| Roles.MenusAfter | fusion_identity/store.py:781-811 | every menu row after every operation: the menus of the last accepted assignment without repeats, gone with its role, else as it was |
| Roles.KnownAfter | fusion_identity/store.py:813-826 | the registered menus grow by an accepted report up to 256 and are otherwise as they were |
| Roles.RepliesAre | fusion_identity/store.py:582-796 | when each operation answers done, when it finds nothing, and when it meets a conflict |
| Roles.RoutesAre | fusion_identity/routes/members.py:85-258 | when each member route writes, and what it leaves stored |
| Roles.MemberKeeps | fusion_identity/store.py:582-811 | every store operation keeps each membership's role resolvable in its own tenant |
| Roles.RowKeeps | fusion_identity/store.py:710-826 | and each menu row on a resolvable role, without repeats, within the limit, of registered menus only |
| Roles.LimitsKeep | fusion_identity/store.py:721-723 | every operation keeps a tenant within 64 custom roles and 256 registered menus |
| Roles.RunKeeps | fusion_identity/store.py:414-436 | all of this over every run, tenant deletions included |
| Roles.VerifyResolves | fusion_identity/auth.py:506-521 | in every reachable state verify answers with a role if and only if the member's stored role is that one, finds no membership exactly when there is none, and never meets an unresolvable role |
| Roles.VerifyFollows | fusion_identity/auth.py:506-521 | after every run in which a member was last given a role, verify answers with that role |
| Roles.AllowsOnlyResolved | fusion_identity/deps.py:84-104 | a role that does not resolve in the tenant is allowed nothing, built-in roles do not depend on custom ones, and only administrators or holders of the members write class may change memberships |
| Roles.AllowsExactly | fusion_identity/deps.py:84-104 | what each role is allowed, resource by resource and action by action: everything for an administrator, the table for the other built-in roles, and every action on the resources of its write classes for a custom role |
| Roles.RouteKeepsAdmin | fusion_identity/routes/members.py:36-149 | every member route leaves a tenant that has an administrator with one |
| Roles.AdminRemains | fusion_identity/routes/members.py:36-258 | the same over every run of the routes |
| Roles.CheckThenWrite | fusion_identity/routes/members.py:118-149 | reads and write of a handler with nothing in between are the route |
| Roles.DemotionTakes | fusion_identity/routes/members.py:118-149 | a write that gives another role or dismisses takes exactly its target out of the administrators, whatever has happened since its checks |
| Roles.MovesKeep | fusion_identity/routes/members.py:36-258 | while no handler under way threatens to demote, every run of whole routes, reads, writes, and roles that come and go keeps an administrator |
| Roles.DemotionLoses | fusion_identity/routes/members.py:233-258 | while one waits, some run of whole routes makes its target the only administrator, and then it is written |
| Roles.RoleCreated | fusion_identity/store.py:710-741 | whatever handlers wait, whole routes can make any well-formed role exist, also in a tenant that has all the roles it may have |
| Roles.CountedLoses | fusion_identity/routes/members.py:243-247 | also a handler that has only counted the administrators can still leave none, whatever it counted |
| Roles.OverlapKeepsAdminIff | fusion_identity/routes/members.py:118-149 | so, as long as no further handler starts, an administrator remains in every continuation, role creation and deletion included, if and only if no handler under way is to dismiss a member or to give one another role that exists or can be created |
| Roles.AnyStateCanLose | fusion_identity/routes/members.py:233-258 | with new overlaps allowed, every state has a run that leaves the tenant without an administrator |
| Roles.TwoChecksRace | fusion_identity/routes/members.py:128-134 | two administrators who dismiss each other at once, as a run: both checks count two, and nobody is left |
| Roles.LateRoleRace | fusion_identity/routes/members.py:98-115 | a run in which a member is added late with a role created since, over the same user's membership as the only administrator |

## Left out

- Password hashing, TOTP, JWT encoding, RSA and PEM handling, base64 and SMTP: library calls; only their results matter here.
- `fusion_identity/db.py`: SQL, row-level security, pooling and migrations; it only shows that each store call is one statement.
- HTTP, gRPC and FastAPI wiring, metrics, configuration loading, the client SDK and the documentation validator.
- OIDC, SCIM, departments, usage export, plan templates, registration and join routes: thin operations that would only add easy members. SCIM deletion and tenant deletion remove members without the last-administrator guard and are outside `Roles.AdminRemains`.
- The Redis login limiter (`cache.py:48-61`, a fixed window) and the one-shot OIDC state: easier than the machines modelled here.
- Failures of the store or of Redis in the middle of a handler, and the service without Redis; the pipeline is stated for normal returns.
- Two re-encryption sweeps at once, a keyring file damaged from outside, and changes of the configured or external keys between restarts.
- The capped lease log (`store.py:661-664`): the model keeps all entries, so what is retained is a suffix of them.
- The time-to-live of the daily counter (7 days, renewed by every use): it outlives its day, so its end changes nothing.
- Floating-point rounding: the token bucket, key ages and token times are reals.
- Lower-casing and composition of limiter keys, stripping of API keys, and collisions between tenant names that contain `:`.
- Lone surrogates in Python strings: characters in the canonical JSON are Unicode scalar values.
- Priorities, display names and tiers in the authorize response: labels that no decision reads.
- The write classes, menus, scopes and quota that the verify response carries beside the role (`auth.py:506-560`): copies of stored rows.
- A key ring without configured key material: it draws a new key at every start, so before the first rotation a restart has nothing to restore.

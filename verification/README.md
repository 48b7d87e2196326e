# Sessions, ad grants and the panel outbox: a verified model

The backend sells VPN time for watched ads. A `/connect` opens a session and an ephemeral user on
a remote panel; verified ad callbacks fulfil a grant; claiming the grant moves the session's
deadline; a durable outbox mirrors deadlines and removals to the panel. Many writers touch the
same rows at once: connects, claims, ad-network callbacks, the reaper, kicks, bans, panics, node
evacuations, several drainers, and the inline pushes that race them. What the system is for are
properties of whole runs, and that is how they are proved here: nobody gets more time than was
funded, no live user is removed, and every closed session has its removal queued, except where the
code itself does not promise it. There the exact condition is proved instead, with a concrete run
that shows the failure; see "Where the code is not what its comments say".

## How it is modelled

**Transactions.** Each transaction body is a function from the tables before to the tables after, or
to an error that leaves no trace (`Ads`, `Connection`, `Admin`, `Reaper`, `Outbox`, `Auth`,
`Attest`). Beside it stands a class with the same statements one after another on mutable tables
(`AdsService`, `ConnectionService`, `AdminService`, `ReaperWorker`, `OutboxDrainer`, `AuthService`,
`UserRow`, `AttestService`, `ApiClient`), each method proved to leave exactly what the function
says, a rolled-back one included. What each function does is then stated without it: when each of
its outcomes arises, as an equivalence, and what every row is afterwards (the lemmas named
`ExactlyWhen`, `Exactly`, `Decides` and `BuysTime`). Rows are never deleted, so a table is a
sequence and an id is a position; freshly drawn usernames, nonces and tokens are identified with the
row that holds them.

**Runs.** `Protocol` puts all of it into one state machine: a clock, the tables, the panel, and the
activities in progress. Between any two awaits of one activity every other step may happen.
A panel call can take effect or not and come back or throw, independently; a status write may be
applied although its statement reports an error; an activity can be lost in a crash at any await;
any number of drainers may hold the same row once a lease has run out. `Safety` is the invariant
and the proof that every step keeps it.

**Results.** `Guarantees` (panel never ahead of the database, no live user removed, when an absence
is final), `Finality` (for a success, a held row, a forgotten session and a removal the exact
condition on the activities in progress; a drained queue leaves no closed user, at whatever pace it
is drained), `Removals` (a session is asked to be removed twice at most), `Conservation` (ads and
time over whole runs), `Usage` (what the panel serves, session by session and in all, against the
ads that were watched), `Placement` (concurrency, evacuated and failing nodes), `Progress` (what an
undisturbed activity achieves, and that the ticks of `Outbox` are runs of `Protocol`), `Witness`
(concrete runs: a removal that misses its user, a session with two removals, a session forgotten, a
lease that does not fence, a success undone, a banned user connected). `Lockout`, `Auth`,
`WebClient`, `AuthData` and `Attest` are smaller machines in the same style: login lockout,
refresh-token families (section 4.14.2 of RFC 9700), the browser client composed with them, several
tabs over one storage (`SharedStorage`), authenticator data (section 6.1 of W3C WebAuthn Level 2),
attestation. `Subscriptions` holds the rows an administrator's tier changes touch. `Tables`, `Rows`,
`Sums`, `Store`, `Ledger` and `Funding` are the rows, the queries, the totals and the table
invariants everything rests on.

## Where the code is not what its comments say

The model follows the code.

- `backend/src/ads/ads.service.ts:220-226` writes `expired` and then throws inside the transaction,
  so the write is undone: no grant ever reaches that status (`GrantsNeverExpireInTheTable`).
- `backend/src/ads/ads.service.ts:248` speaks of adding exactly `grant_minutes`. That is so exactly
  when the minutes fit under the lifetime cap (`ClaimBoundsExpiry`; `CapCutsShort` is a claim they do not).
- `backend/src/connection/connection.service.ts:95-96` calls the outbox the guarantee that the panel
  converges. A session closed between connect's commit and its `createUser` can have its only
  removal succeed before there is a user to remove (`RemovalMayMissItsUser`). An absent user stays
  absent for ever exactly when no connect has its `createUser` still ahead
  (`AbsenceIsFinalExactlyWhen`). A succeeded removal means an absent user in every future exactly when
  that is so and, should the user be present, the removal is neither succeeded yet nor about to be
  marked so by an activity past its panel calls; or when it has been given up
  (`RemovalIsFinalExactlyWhen`).
- The three statements of `failSession` (`backend/src/connection/connection.service.ts:284-302`) are
  separate, so a crash between them forgets the session: failed, its user enabled on the panel,
  nothing ever queued to remove it (`SessionMayBeForgotten`). A closed session without a removal is
  always a failed one, and it gets none in any future exactly when no connect has its cleanup still
  ahead (`ForgottenExactlyWhen`).
- The guard on `in_flight` at `backend/src/workers/outbox-drainer.worker.ts:83-87` is meant to keep a
  worker from clobbering a row that was reclaimed from it. It does not: the row is in flight again
  (`StaleWorkerOverwrites`). A held row can be rewritten by others before its lease ends exactly when
  another drainer holds it too, or an inline push of it is under way (`LeaseProtectsExactlyWhen`).
- `succeeded` is not final: the inline failure write at `backend/src/ads/ads.service.ts:345-350` has
  no guard (`SuccessMayBeUndone`). It is final exactly when no inline push of the operation is in
  progress (`SuccessIsFinalExactlyWhen`), so for removals always.
- `backend/src/attest/app-attest.verifier.ts:189-193` promises a strict DER parse; the two outer
  length bytes are stepped over (`AcceptsStrictExactlyWhen`, `LooseLengthIsAccepted`).
- With the trigger at `db/schema.sql:75-89`, a device whose counter an assertion has moved can never
  register a key again (`RegistrationNeedsUnusedCounter`, and over whole runs
  `AssertionEndsRegistration`).
- A ban closes the user's sessions, but is not looked at again inside connect's transaction: a connect
  under way opens a session for the banned user (`BannedUserMayConnect`). Until one commits there is
  none (`BanLasts`).
- `failed_login_count` survives the lock: after it runs out a single further failure locks again
  (`LockedExactlyWhen`).
- `web/lib/api.ts:39-43` calls the refresh concurrency-safe. Two tabs share one local storage but not
  the refresh promise: they can present the same token and be taken for thieves (`TabsCanCollide`). So
  can a single tab when an answer is lost (`LossCanLookLikeTheft`). A browser is never taken for a
  thief exactly when it has one tab and no answer is lost (`SafeExactlyWhen`).
- The statuses `limited` and `closed` are never written (`RemovalsNameClosedSessionsOnce`).

## Model

| member | source | states |
|---|---|---|
| Ads.AdsService.RequestAdToken | backend/src/ads/ads.service.ts:71-95 | mints one pending grant with the rules of its purpose and a window from now; a session that does not exist is refused and nothing is written |
| Ads.AdsService.RecordVerifiedReward | backend/src/ads/ads.service.ts:103-165 | sentinel, unknown nonce, duplicate, late and counting callbacks each leave exactly the rows the transaction would |
| Ads.AdsService.VerifyAdReward | backend/src/ads/ads.service.ts:178-301 | phase A: commits the claim or leaves every table as it was, the status write before the window error included |
| Ads.TokenIsMinted | backend/src/ads/ads.service.ts:71-95 | one pending grant of the caller's user, device, purpose and session, until the window ends, and no other change |
| Ads.ClaimRefusedExactlyWhen | backend/src/ads/ads.service.ts:186-259 | for each refusal, and for the replay, the tables under which it is the answer, no others |
| Ads.MinutelessClaimExtendsNothing | backend/src/ads/ads.service.ts:262-291 | a grant without minutes is consumed for its session; deadline and queue stay as they are |
| Ads.ClaimGrantsExactlyWhen | backend/src/ads/ads.service.ts:193-257 | a claim grants if and only if caller, grant, window, binding, verified ads, live session and lifetime left all agree |
| Ads.ClaimBoundsExpiry | backend/src/ads/ads.service.ts:248-291 | new expiry strictly after now and after the old one, at most the minutes past the later of the two, never past the cap, exactly the minutes if and only if they fit; one extend queued afresh, due now, for that instant to the second |
| Ads.CapCutsShort | backend/src/ads/ads.service.ts:258-259 | a claim of an hour that moves the deadline by five minutes, to the cap |
| Ads.ClaimFrame | backend/src/ads/ads.service.ts:262-291 | a claim touches only its grant, its session and the queue, and binds the grant to that session |
| Ads.ReplayChangesNothing | backend/src/ads/ads.service.ts:205-218 | claiming again, at any later time, answers from the session row and changes no table |
| Ads.SpentGrantFundsNothingElse | backend/src/ads/ads.service.ts:197-203 | a consumed grant named with another session is refused |
| Ads.IntakeCountsDistinct | backend/src/ads/ads.service.ts:103-165 | for any callbacks whatever, in any order, repeated, late or for other grants: the ads counted for a grant are the new transactions first delivered for it before its window ended, up to those missing; later ones are recorded and never count; it is fulfilled exactly when none is missing |
| Ads.IntakeIgnoresOrder | backend/src/ads/ads.service.ts:130-163 | deliveries of which the same transactions are in time for each grant leave the same grants table |
| Ads.PunctualDeliveriesCount | backend/src/ads/ads.service.ts:130-152 | if none comes late and none is delivered for two grants, all new transactions are in time, in whatever order |
| Ads.CallbackCountsExactlyWhen | backend/src/ads/ads.service.ts:130-163 | one callback changes a grant if and only if it is known, pending, in its window and the transaction is new |
| Ads.MintedGrantBuysWhen | backend/src/ads/ads.service.ts:178-301 | a fresh grant buys time after any callbacks if and only if user, binding, window, ads in time and session all agree, and then its own minutes |
| Ads.WatchingBuysTime | backend/src/ads/ads.service.ts:71-301 | request, callbacks and claim together, an equivalence over every claimant, session and instant: only the user, the bound session, before the window ends, with 2 ads (1 for a disconnect) in time and lifetime left; it buys 60 minutes (none) |
| Ads.RequestTokenKeeps | backend/src/ads/ads.service.ts:71-95 | keeps both table invariants and only adds rows |
| Ads.RecordRewardKeeps | backend/src/ads/ads.service.ts:115-164 | keeps both table invariants: never more ads than required, each transaction once |
| Ads.ConsumeKeeps | backend/src/ads/ads.service.ts:262-291 | consuming a fulfilled grant for a live session of its user keeps both table invariants |
| Ads.ClaimKeeps | backend/src/ads/ads.service.ts:183-301 | a committed claim keeps both table invariants |
| Connection.ConnectionService.ResolveTierAndExpiry | backend/src/connection/connection.service.ts:219-239 | the plan of the entitling subscription whose period ends last (null last), or the free plan |
| Connection.ConnectionService.PickNode | backend/src/connection/connection.service.ts:241-261 | a placeable node that no placeable node precedes in load, failures, weight, with an inbound of it that is reachable and allowed for the tier; none only if there is none |
| Connection.ConnectionService.EvictOldest | backend/src/connection/connection.service.ts:88-104 | revokes exactly the first rows of the listing and queues a removal for each, in order |
| Connection.ConnectionService.Connect | backend/src/connection/connection.service.ts:77-153 | the whole phase A: evictions, placement, session and grant, or a rollback that leaves nothing |
| Connection.ConnectionService.FailSession | backend/src/connection/connection.service.ts:284-302 | the three cleanup statements in a row |
| Connection.ResolveAgreesWithEffectiveTier | db/schema.sql:202-215 | the plan is premium if and only if some premium subscription is active or in grace and has not ended, as effective_tier has it; no entitling period outlasts its deadline |
| Connection.PlanIsExactly | backend/src/connection/connection.service.ts:219-239 | deadline, limit and tier of the plan read: the latest period end of what entitles, the fallback if none ever ends, that subscription's limit; the free plan's window and limit, or one |
| Connection.ConnectRespectsConcurrency | backend/src/connection/connection.service.ts:79-104 | after a commit the user has one live session more, but never more than the plan allows |
| Connection.ConnectEvictsOldest | backend/src/connection/connection.service.ts:79-94 | whoever is evicted was live, the user's own, and no younger than any session kept |
| Connection.ConnectOpens | backend/src/connection/connection.service.ts:79-153 | the committed session column by column; one removal for each evicted row, no other row changed, and no grant for premium |
| Connection.ConnectFailsExactlyWhen | backend/src/connection/connection.service.ts:88-136 | no capacity if and only if no node is placeable; a conflict if and only if a session of the device is live and not evicted |
| Connection.ConnectMints | backend/src/connection/connection.service.ts:138-151 | the free tier's one grant: this user's, this device's, for this session, as configured, until the provisioning window ends |
| Connection.ConnectGrantBuysTime | backend/src/connection/connection.service.ts:138-151 | connect, callbacks and claim together, an equivalence: that grant buys the configured minutes for this user and session only, in the window, with the configured ads in time |
| Connection.PlacementIsLightest | backend/src/connection/connection.service.ts:241-261 | the node chosen takes sessions of the tier and has the least load, then failures, then weight of those that do; none only if none does |
| Connection.ConnectKeeps | backend/src/connection/connection.service.ts:77-153 | a committed connect keeps both table invariants, the one-live-session index among them |
| Connection.FailingGivesPlaceBack | backend/src/connection/connection.service.ts:284-302 | failing a live session frees its place and device, queues its one removal, counts against its node |
| Outbox.OutboxDrainer.Drain | backend/src/workers/outbox-drainer.worker.ts:45-55 | no overlapping ticks, none once shutting down, nothing changed if the claim does not commit; otherwise exactly one tick, as far as it got before an error, and `running` cleared either way |
| Outbox.OutboxDrainer.RunTick | backend/src/workers/outbox-drainer.worker.ts:57-116 | a claim of the due rows that come first, then one dispatch for each until an error escapes a catch block |
| Outbox.OutboxDrainer.ClaimDue | backend/src/workers/outbox-drainer.worker.ts:59-77 | the earliest due open rows up to the batch, leased and counted once more |
| Outbox.OutboxDrainer.DispatchEach | backend/src/workers/outbox-drainer.worker.ts:80-115 | the fold of single dispatches, cut short at the row whose failure write throws, the rest left as claimed |
| Outbox.OutboxDrainer.DispatchRow | backend/src/workers/outbox-drainer.worker.ts:81-114 | one panel dispatch and the guarded status writes, either of which may throw, applied or not; an error of the success write counts as a retryable failure |
| Outbox.OutboxDrainer.Deliver | backend/src/workers/outbox-drainer.worker.ts:118-137 | the panel calls of each operation, stopping at the first that throws |
| Outbox.DispatchedExactlyWhen | backend/src/workers/outbox-drainer.worker.ts:81-114 | succeeded if and only if the panel did what the operation asks and the success write took effect; of the rest dead if and only if refused for good or out of attempts, else due after the backoff; a row no longer in flight is left alone |
| Outbox.DispatchReachesPanel | backend/src/workers/outbox-drainer.worker.ts:118-137 | a removal the panel took has its user gone, an extend its user at that very instant (unless it had gone by); nobody else changes |
| Outbox.ClaimsEarliestDue | backend/src/workers/outbox-drainer.worker.ts:59-77 | only open due rows, each leased with one attempt more; a due row is left only behind a full batch due no later |
| Outbox.CompletedExtendArrived | backend/src/workers/outbox-drainer.worker.ts:80-125 | an extend completed in a tick had its call come back in it, and the panel holds its instant if no other operation of the session was in the tick |
| Outbox.DispatchAllSettles | backend/src/workers/outbox-drainer.worker.ts:80-115 | every held row ends succeeded (its calls having come back), dead (refused for good or out of attempts), due after its backoff (neither), or, only if a failure write threw, still leased; no other row changes; a removal succeeds only with its user gone |
| Outbox.TickSettles | backend/src/workers/outbox-drainer.worker.ts:57-116 | the same for a whole tick, seen from the rows before the claim |
| Outbox.TickSpendsBudget | backend/src/workers/outbox-drainer.worker.ts:100-112 | each claim of a tick that is not cut short lowers the sum over open rows of max(1, MAX_ATTEMPTS - attempts), and no tick raises it |
| Outbox.ClaimsAreBounded | backend/src/workers/outbox-drainer.worker.ts:57-116 | one worker whose ticks are not cut short never claims more often than that sum, however long it runs |
| Outbox.DrainingEnds | backend/src/workers/outbox-drainer.worker.ts:57-116 | at whatever pace the worker ticks, and however many ticks are cut short: once all that is open has come due again as often as that sum, every operation has ended succeeded or dead |
| Outbox.DrainedInTime | backend/src/workers/outbox-drainer.worker.ts:20-55 | in time: a worker whose ticks last at most `span` and follow at most `gap` (5 s by default) on each other has ended every operation after that sum times 256 s + gap + 2 span |
| Outbox.RoundsTakeTime | backend/src/workers/outbox-drainer.worker.ts:45-55 | of such a worker's ticks, however many fall into a round, no round takes longer than that |
| Outbox.SpacedTicksAreRounds | backend/src/workers/outbox-drainer.worker.ts:99-110 | ticks the largest backoff apart are a round each, so then as many ticks as that sum suffice |
| Outbox.DrainedMeansGone | backend/src/workers/outbox-drainer.worker.ts:57-137 | with removals accepted, the panel users left after so many rounds, at whatever pace, are exactly those whom nothing open asked to remove |
| Outbox.RemovedStayRemoved | backend/src/workers/outbox-drainer.worker.ts:126-133 | a removal that ends succeeded has its user gone at the end of the run, ticks cut short included |
| Outbox.CapNeverBinds | backend/src/workers/outbox-drainer.worker.ts:102 | the backoff is 2^min(attempts, 8) seconds, at most 256: the cap of 300 is never reached |
| Outbox.HorizonInClosedForm | backend/src/workers/outbox-drainer.worker.ts:99-110 | the backoffs of MAX attempts sum to 2^MAX - 2 up to nine, 256 more for each beyond |
| Outbox.NotDeadBeforeHorizon | backend/src/workers/outbox-drainer.worker.ts:61-110 | a removal that only fails retryably is as old as the backoffs of its attempts, whenever ticks fall |
| Outbox.RetryHorizon | backend/src/workers/outbox-drainer.worker.ts:99-112 | such a removal is not dead before its first claim plus that horizon |
| Progress.TicksAreARun | backend/src/workers/outbox-drainer.worker.ts:57-116 | every sequence of ticks of one worker, those cut short included, is a run of the protocol with the same queue and panel, and no other table changed |
| Progress.DispatchIsARun | backend/src/workers/outbox-drainer.worker.ts:80-114 | one dispatch, with any replies of panel and database, is the drainer's next awaits in the protocol |
| Progress.TransactionsAreSteps | backend/src/ads/ads.service.ts:71-165 | minting, a callback, a kick, a flag are each one step of the protocol at the present instant, the transaction or nothing |
| Progress.PlanReadLaunchesConnect | backend/src/connection/connection.service.ts:66-70 | whatever the user's subscriptions, the plan read starts a connect on the plan they give |
| Progress.InlinePushEndsExactly | backend/src/ads/ads.service.ts:327-351 | with any replies: an inline push the panel takes leaves it with the new instant; the operation ends succeeded, due in exactly 15 seconds or as it was, each if and only if the writes that took effect say so |
| Progress.ClaimLaunchesPush | backend/src/ads/ads.service.ts:293-330 | a committed claim of minutes goes on to push exactly the new deadline for the operation it queued |
| Progress.InlineRevokeEndsExactly | backend/src/connection/connection.service.ts:157-165 | with any replies: an inline removal marks exactly that session's queued revokes succeeded, if and only if both calls came back and the write took effect, the user then being gone |
| Progress.ConnectLaunchesProvisioning | backend/src/connection/connection.service.ts:155-177 | a committed connect goes on to drop exactly those it revoked and to create its user until the new deadline |
| Progress.CreateDecides | backend/src/connection/connection.service.ts:169-192 | read back if createUser returned, cleaned up if it threw, applied or not |
| Progress.ReadBackDecides | backend/src/connection/connection.service.ts:180-192 | content if and only if the user is there with the instant sent, to two whole seconds; otherwise cleaned up |
| Progress.CleanupStopsAtError | backend/src/connection/connection.service.ts:284-302 | the three statements with any replies: each runs only if those before returned, and counts only if it took effect |
| Progress.ConnectProvisions | backend/src/connection/connection.service.ts:172-188 | left alone, connect ends with its user enabled on the panel until the deadline to the second |
| Progress.FailedConnectCleansUp | backend/src/connection/connection.service.ts:189-192 | a createUser that throws leads to all three statements of failSession |
| Reaper.ReaperWorker.SweepOnce | backend/src/workers/reaper.worker.ts:51-80 | the earliest overdue live sessions up to the batch expire, one delete queued for each |
| Reaper.ReaperWorker.Drain | backend/src/workers/reaper.worker.ts:35-41 | the batch loop terminates and equals one sweep of everything overdue, earliest deadlines first |
| Reaper.ReaperWorker.Reap | backend/src/workers/reaper.worker.ts:31-48 | nothing while running or shutting down, otherwise one such sweep |
| Reaper.SweepExpiresExactlyOverdue | backend/src/workers/reaper.worker.ts:53-77 | exactly the live sessions past their deadline become expired, each gains exactly one delete due now, nothing else changes, nothing overdue is left |
| Reaper.BatchExtendsSweep | backend/src/workers/reaper.worker.ts:37-41 | one more batch continues the sweep in deadline order, a short one completes it, a non-empty one makes progress |
| Reaper.TopsCompose | backend/src/workers/reaper.worker.ts:58-64 | the earliest after the earliest are together the earliest |
| Admin.AdminService.KickSession | backend/src/admin/admin.service.ts:194-212 | not found, already closed and live sessions each leave exactly the rows the transaction would |
| Admin.AdminService.MutateUser | backend/src/admin/admin.service.ts:144-191 | an unknown user is refused; a ban closes every live session with its audit row, an unban only clears the flag; a tier change touches subscriptions only |
| Admin.AdminService.GrantInternalPremium | backend/src/admin/admin.service.ts:386-409 | every current grant of the user extended, a fresh one if there was none |
| Subscriptions.GrantEntitles | backend/src/admin/admin.service.ts:386-409 | after a grant effective_tier is premium if and only if its end is not reached or another subscription entitles; every current grant ends then, one with the limit of three is added only if there was none; no other row changes |
| Subscriptions.RevokeLeavesPurchases | backend/src/admin/admin.service.ts:176-187 | after taking it away effective_tier is premium if and only if a store or promo subscription entitles on its own; exactly the user's internal premium rows lapse |
| Admin.AdminService.PanicRevokeFreeSessions | backend/src/admin/admin.service.ts:222-245 | closes the live free sessions, queues a removal for each, audits their number |
| Admin.AdminService.ForceMigrateNode | backend/src/admin/admin.service.ts:316-353 | drains, closes, queues and audits in one commit, or finds no node and changes nothing |
| Admin.AdminService.SetActive | backend/src/admin/admin.service.ts:296-304 | sets the drain flag of one node and nothing else, or finds no node |
| Admin.KickRevokesOne | backend/src/admin/admin.service.ts:200-209 | a live session is revoked with exactly one removal, due now; a closed one is left alone; an unknown one is refused |
| Admin.BanLeavesNoLiveSession | backend/src/admin/admin.service.ts:153-172 | exactly the user's live sessions are revoked the moment a ban commits, one removal each; the audit counts them |
| Admin.UnbanClearsOneFlag | backend/src/admin/admin.service.ts:153-155 | lifting a ban clears that user's flag and nothing else |
| Admin.PanicClosesExactlyFree | backend/src/admin/admin.service.ts:224-241 | exactly the live free sessions are revoked, one removal each; the audit counts them; nothing else changes |
| Admin.MigrateEvacuates | backend/src/admin/admin.service.ts:322-349 | the node is drained and exactly its live sessions are revoked, one removal each; the audit counts them; an unknown node is refused |
| Admin.SyncDecidesPlacement | backend/src/workers/node-sync.worker.ts:36-48 | after a sync a node takes sessions if and only if it is online, not drained and has an inbound for them; only online ones are forgiven |
| Admin.DrainingDecidesPlacement | backend/src/admin/admin.service.ts:296-304 | a drained node takes none; an enabled one does if and only if nothing else is amiss |
| Safety.StepKeeps | backend/src/db/pool.ts:29-45 | every step of every activity, atomic or not, keeps the invariant and lets rows change only forward |
| Safety.RunKeeps | backend/src/db/pool.ts:29-45 | so does every run |
| Safety.FlightStable | backend/src/ads/ads.service.ts:302-338 | what an activity holds stays true while all others change the tables under it |
| Guarantees.PanelNeverAheadOfDatabase | backend/src/ads/ads.service.ts:327-338 | in every reachable state the panel's expiry of a user is no later than its session's in the database, and none is unlimited |
| Guarantees.DeadlinesOnlyMoveOut | backend/src/ads/ads.service.ts:248-281 | over every run deadlines never decrease, and a free session's never passes created_at plus the maximum |
| Guarantees.ClosedForGood | backend/src/connection/connection.service.ts:284-290 | a closed session never becomes live; it can at most be marked failed |
| Guarantees.RemovalsNameClosedSessionsOnce | backend/src/workers/reaper.worker.ts:53-77 | live sessions have no removal, expired and revoked ones exactly one; five statuses occur |
| Guarantees.StepSparesLiveUsers | backend/src/workers/outbox-drainer.worker.ts:118-137 | no step deletes or disables the panel user of a live session |
| Guarantees.NoLiveUserIsEverRemoved | backend/src/connection/connection.service.ts:157-169 | over any stretch of any run, whoever is live at its end was neither removed nor disabled in it |
| Guarantees.SucceededRemovalIsFinal | backend/src/workers/outbox-drainer.worker.ts:83-89 | with createUser behind and no removal reported, or about to be, over a present user, a user still present keeps it from being succeeded; once succeeded the user stays absent |
| Guarantees.AbsentForGood | backend/src/panel/RebeccaPanelClient.ts:189-217 | with createUser behind, nothing recreates an absent user: no extend does |
| Guarantees.CreateCanStillCome | backend/src/connection/connection.service.ts:155-173 | a connect still before its createUser can always get there |
| Guarantees.AbsenceIsFinalExactlyWhen | backend/src/connection/connection.service.ts:155-182 | an absent user is absent in every future if and only if no connect has its createUser ahead |
| Finality.SuccessIsFinalExactlyWhen | backend/src/ads/ads.service.ts:327-351 | a succeeded operation is succeeded in every future if and only if no inline push of it is in progress |
| Finality.LeaseProtectsExactlyWhen | backend/src/workers/outbox-drainer.worker.ts:60-109 | a held row in flight is rewritten by others before its lease ends in some future if and only if another activity names it |
| Finality.HolderCanWrite | backend/src/workers/outbox-drainer.worker.ts:80-114 | a drainer can always still write the status of an in-flight row it holds, whatever lies before it |
| Finality.PushCanReopen | backend/src/ads/ads.service.ts:327-351 | an inline push can always still end in its failure write |
| Finality.ForgottenExactlyWhen | backend/src/connection/connection.service.ts:284-302 | a closed session without a removal is failed, and gets none in any future if and only if no connect has its cleanup ahead |
| Removals.AtMostTwoRemovals | backend/src/connection/connection.service.ts:284-302 | in every reachable state a session has at most two removals, and two only when failed and past its cleanup |
| Removals.LastRemovalExactlyWhen | backend/src/connection/connection.service.ts:284-302 | a closed session's removals grow in no future if and only if no connect has its cleanup ahead |
| Removals.OneMoreCanCome | backend/src/connection/connection.service.ts:284-302 | a cleanup short of its enqueue has a run that adds exactly one removal |
| Finality.CleanupCanStillCome | backend/src/connection/connection.service.ts:171-192 | a connect that has not passed its cleanup can always get there |
| Finality.RemovalIsFinalExactlyWhen | backend/src/connection/connection.service.ts:155-182 | from any reachable state: in every future a succeeded removal means an absent user, if and only if createUser is behind and a user still present has not been reported removed nor is about to be, or the removal was given up |
| Finality.MissedCanBeReported | backend/src/workers/outbox-drainer.worker.ts:80-89 | a removal whose user is present can always come to be succeeded once an activity is past its panel calls, even if the row has to be claimed again first |
| Finality.RemovalCanSucceed | backend/src/workers/outbox-drainer.worker.ts:57-137 | an open removal can always still succeed, nobody else having moved |
| Finality.DrainingReclaims | backend/src/workers/outbox-drainer.worker.ts:57-137 | from any reachable state, after as many rounds as the remaining attempts, at whatever pace and with ticks cut short, the panel users left are exactly those whom nothing open asked to remove, and the others stay away once their createUser is over |
| Finality.NoClosedUserRemains | backend/src/workers/outbox-drainer.worker.ts:57-137 | if each expired or revoked session on the panel still has its removal open and every createUser is over, those rounds leave none of them there, then or ever after |
| Witness.RemovalMayMissItsUser | backend/src/connection/connection.service.ts:155-173 | a concrete run: session revoked, its only removal succeeded, its user enabled on the panel |
| Witness.SessionMayBeForgotten | backend/src/connection/connection.service.ts:284-302 | a concrete run: session failed, its user enabled on the panel, no removal queued in any future |
| Witness.SecondRemovalComes | backend/src/connection/connection.service.ts:284-302 | the bound of two is met: a reachable state in which a session has two removals |
| Witness.StaleWorkerOverwrites | backend/src/workers/outbox-drainer.worker.ts:83-109 | a concrete run: a worker whose lease ran out reopens a row that a second one holds under a running lease |
| Witness.SuccessMayBeUndone | backend/src/ads/ads.service.ts:327-351 | a concrete run: a drainer succeeds with an extend, then its inline push throws and reopens it |
| Witness.BannedUserMayConnect | backend/src/connection/connection.service.ts:71-136 | a concrete run: a connect under way when its user is banned opens a live session for them |
| Witness.FirstConnectOpens | backend/src/connection/connection.service.ts:77-153 | a concrete reachable state and connect that meet the premises of the results on openings and newborn free sessions |
| Conservation.AdsAreConserved | db/migrations/0002_time_based_rewards.sql:59-74 | each transaction counts once, no grant counts more than it requires, the required ads of all consumed grants are covered by distinct verified ads |
| Conservation.ActiveFreeSessionsAreFunded | backend/src/ads/ads.service.ts:227-281 | every free session in active is backed by a consumed, fully verified grant of its user |
| Conservation.ExtensionsAreCounted | backend/src/ads/ads.service.ts:262-281 | extensions_count is the number of consumed grants of positive minutes bound to the session; a consumed grant is bound to one session of its user |
| Conservation.GrantsNeverExpireInTheTable | backend/src/ads/ads.service.ts:220-226 | no reachable state has a grant marked expired |
| Conservation.ClaimConservesTime | backend/src/ads/ads.service.ts:248-281 | a claim adds to the remaining time no more than its grant funded |
| Conservation.RunConservesTime | backend/src/ads/ads.service.ts:248-281 | over a run, unexpired time plus remaining time grows by no more than what was funded |
| Conservation.BirthOfFreeSession | backend/src/connection/connection.service.ts:229-233 | a free session starts with at most the provisioning window and nothing funded |
| Conservation.TimeIsConserved | backend/src/ads/ads.service.ts:248-281 | over a whole run a free session is unexpired for at most the provisioning window plus the minutes of its consumed grants, lapses and restarts included |
| Conservation.FundedTimeBoundsUse | backend/src/ads/ads.service.ts:248-281 | the same from a fresh deployment on |
| Usage.UsableOnlyUnexpired | backend/src/ads/ads.service.ts:327-350 | over any run the panel lets a session's user through for no longer than the session row is unexpired |
| Usage.PanelUseIsFunded | backend/src/ads/ads.service.ts:248-350 | from a fresh deployment on, the panel serves a free session's user for at most the provisioning window and the minutes consumed for it |
| Usage.AllMinutesWereWatched | backend/src/ads/ads.service.ts:71-301 | the minutes granted to all sessions together come to at most the verified ads times the most minutes an ad can earn |
| Usage.AllUseWasWatched | backend/src/ads/ads.service.ts:71-350 | what the panel serves all free sessions together over a whole run is at most a provisioning window each and the worth of the ads verified |
| Placement.OneLiveSessionPerDevice | db/schema.sql:287-290 | no reachable state has two live sessions on one device |
| Placement.FreeSessionsLiveOnFreeNodes | backend/src/connection/connection.service.ts:241-252 | free sessions are on nodes of the free tier |
| Placement.OnlyConnectInserts | backend/src/connection/connection.service.ts:116-135 | sessions come from committed connects only, one at a time |
| Placement.OpeningRespectsLimit | backend/src/connection/connection.service.ts:87-104 | the connect that opens a session leaves the user within the limit it had read |
| Placement.LatestLimitHolds | backend/src/connection/connection.service.ts:77-136 | and in every later state until the user's next committed connect |
| Placement.BanLasts | backend/src/admin/admin.service.ts:153-172 | from a ban's commit until a connect of the user commits, no state has a live session of theirs |
| Placement.QuarantineLasts | backend/src/connection/connection.service.ts:250-298 | after three failures no session is opened on a node until a sync finds it online |
| Placement.StreakOnlyRises | backend/src/workers/node-sync.worker.ts:36-48 | only a sync that finds the node online forgives failures |
| Placement.DrainFlagIsAdminOwned | backend/src/workers/node-sync.worker.ts:36-48 | nothing but an explicit enable clears the drain flag, syncs least of all |
| Placement.EvacuationLasts | backend/src/admin/admin.service.ts:296-353 | from a force-migrate to the next explicit enable no state has a live session on the node |
| Panel.PanelServer.Call | backend/src/panel/IPanelClient.ts:11-35 | the effect and the outcome of each client call |
| Panel.StoredIsFaithful | backend/src/panel/RebeccaPanelClient.ts:159-201 | both panels store the instant sent, to the second and never later, and both round-trip checks accept it |
| Panel.MixUpIsCaught | backend/src/panel/RebeccaPanelClient.ts:245-257 | seconds taken for milliseconds, or the reverse, fail both checks |
| Panel.RoundTripIsStricter | backend/src/connection/connection.service.ts:318-322 | whatever assertExpiryRoundTrip accepts expiryMatches accepts; beyond that it accepts exactly the instants more than two seconds off whose whole seconds differ by at most two |
| Panel.DriftsOnlySecondsTolerate | backend/src/panel/RebeccaPanelClient.ts:245-257 | a drift that only expiryMatches tolerates occurs exactly beyond two and short of three seconds either way |
| Panel.EffectIsLocal | backend/src/panel/RemnawavePanelClient.ts:195-246 | calls for one user leave all others alone; only a create adds one; a delete removes |
| Panel.CallDoes | backend/src/panel/RemnawavePanelClient.ts:160-246 | per call, what an applied one has done to its user's expiry and enabled flag, on either panel; one not applied does nothing |
| Panel.CallComesBack | backend/src/panel/RebeccaPanelClient.ts:159-257 | an extend never returns without its user and then may be retried; removals of absent users return; other errors stand as reported |
| Lockout.UserRow.RecordFailedLogin | backend/src/auth/auth.service.ts:265-276 | one more failure, and a new lock if that makes it the maximum or more |
| Lockout.UserRow.CompleteLogin | backend/src/auth/auth.service.ts:126-132 | refuses under a lock, otherwise resets both columns |
| Lockout.LockedExactlyWhen | backend/src/auth/auth.service.ts:91-137 | under any overlap of attempts the columns are a function of the history: locked if and only if the latest failure was at least the maximum-th since the last sign-in and is younger than the lockout |
| Lockout.AttemptsEndExactlyWhen | backend/src/auth/auth.service.ts:98-135 | let in if and only if not locked by the history; a wrong password always counts, a right one signs in if and only if not locked by then |
| Lockout.NoSignInWhileLocked | backend/src/auth/auth.service.ts:123-132 | nobody signs in under a lock set after the attempt began |
| Lockout.GuessesOverlapOrWait | backend/src/auth/auth.service.ts:106-121 | a failure after one that locked comes from an attempt begun before it, or a lockout later |
| Lockout.GuessesAreRationed | backend/src/auth/auth.service.ts:98-121 | in the streak after any sign-in, attempts one after another fail at most once per lockout past the maximum |
| Auth.AuthService.SignIn | backend/src/auth/auth.service.ts:126-135 | opens a family with one live token |
| Auth.AuthService.Rotate | backend/src/auth/auth.service.ts:144-188 | invalid, reused, expired and live tokens each leave exactly the rows the transaction would, reuse committing its revocations |
| Auth.AuthService.SignOut | backend/src/auth/auth.service.ts:209-227 | unknown token, somebody else's and one's own |
| Auth.OneLiveTokenPerFamily | backend/src/auth/auth.service.ts:141-188 | in every run a family has at most one unrevoked token, the newest of a single rotated_from chain of one user |
| Auth.RotationHandsOver | backend/src/auth/auth.service.ts:170-187 | the successor becomes the family's one live token |
| Auth.RotatesExactlyWhen | backend/src/auth/auth.service.ts:144-188 | exchanged if and only if known, unrevoked and in time; the three other answers likewise; an unknown token changes nothing |
| Auth.LateTokenEndsFamily | backend/src/auth/auth.service.ts:163-168 | a live token presented too late is revoked, which leaves its family dead; no token is added, no other touched |
| Auth.LineageNeedsRefreshInTime | backend/src/auth/auth.service.ts:141-188 | in every run a token rotated from another was issued before that one expired |
| Auth.LoginOpensFamily | backend/src/auth/auth.service.ts:133-135 | one live token of a new family, for the configured time; nothing else |
| Auth.RevokedTokenKillsFamily | backend/src/auth/auth.service.ts:153-162 | presenting any revoked token revokes exactly its family's live tokens, as reused |
| Auth.LogoutKillsFamily | backend/src/auth/auth.service.ts:209-227 | logging out is refused if and only if the token is somebody else's; with one's own exactly its family's live tokens are revoked, with an unknown one nothing changes |
| Auth.DeadStaysDead | backend/src/auth/auth.service.ts:141-245 | a family without a live token has none in every later state |
| Auth.ReplayEndsLineage | backend/src/auth/auth.service.ts:153-162 | replaying a used token once ends the lineage for ever |
| Auth.RefreshKeeps | backend/src/auth/auth.service.ts:144-188 | rotation keeps families single chains |
| WebClient.ApiClient.JoinRefresh | web/lib/api.ts:59-67 | starts a refresh or joins the one in flight |
| WebClient.ApiClient.OnResponse | web/lib/api.ts:82-113 | the interceptor up to its first await |
| WebClient.ApiClient.OnRefreshed | web/lib/api.ts:46-67 | the answer stored, the promise cleared, every waiting request runnable |
| WebClient.ApiClient.OnResumed | web/lib/api.ts:99-106 | replay once, or sign out |
| WebClient.AtMostOneRefreshInFlight | web/lib/api.ts:39-67 | whatever requests meet a 401 and in whatever order, one unsettled refresh at most |
| WebClient.EachRequestAtMostTwice | web/lib/api.ts:95-106 | each request goes out at most twice and none waits on a settled refresh |
| WebClient.ClientIsNeverTakenForThief | web/lib/api.ts:43-67 | composed with the server, no token is ever revoked as reused |
| WebClient.NewestNeverReused | backend/src/auth/auth.service.ts:153-174 | a client that presents the newest token of a family never triggers reuse detection |
| WebClient.RespondedExactly | web/lib/api.ts:82-113 | a first 401 waits for the one refresh, started with the stored token if none is in flight; any other answer ends the request; 403 and a second 401 sign out, nothing else does |
| WebClient.WaitersReplayOrSignOut | web/lib/api.ts:46-106 | with a token, which is stored, each waiting request goes out once more; without, each ends and signs out |
| WebClient.ServedExactlyWhen | web/lib/api.ts:46-57 | a refresh brings a token if and only if one was presented, the server got to it, and it was live and in time |
| SharedStorage.SafeExactlyWhen | web/lib/api.ts:12-67 | over every run of a browser with up to n tabs, the server never revokes a token as reused, if and only if n is one and no answer is lost |
| SharedStorage.ReuseNeedsLossOrCollision | web/lib/api.ts:12-67 | with any number of tabs, a token is revoked as reused only if an answer was lost, or two tabs presented one token, of whom one got its successor and the other did not |
| SharedStorage.EvolveKeeps | web/lib/api.ts:43-67 | what each step of any tab keeps: a token about to be presented is the newest, or another tab already has its successor |
| SharedStorage.TabsCanCollide | web/lib/api.ts:15-67 | a concrete run of two tabs, no answer lost, in which a token is revoked as reused |
| SharedStorage.LossCanLookLikeTheft | web/lib/api.ts:46-67 | a concrete run of one tab in which a lost answer has that effect |
| AuthData.ParseReadsLayout | backend/src/attest/app-attest.verifier.ts:170-187 | every layout is read back, or refused exactly when promised credential data is missing |
| AuthData.AtFlagIsBitSix | backend/src/attest/app-attest.verifier.ts:171-182 | the flag that promises credential data is bit 6, whatever the other bits |
| AuthData.AcceptedIsLayout | backend/src/attest/app-attest.verifier.ts:170-187 | whatever is accepted is the layout of what was read |
| AuthData.ExtractAppleNonce | backend/src/attest/app-attest.verifier.ts:194-208 | the index walk accepts 38-byte values with the four tags and the inner length |
| AuthData.StrictEncodingIsRead | backend/src/attest/app-attest.verifier.ts:189-208 | every strict DER value is read back |
| AuthData.AcceptsStrictExactlyWhen | backend/src/attest/app-attest.verifier.ts:200-206 | an accepted value is strict DER if and only if the two skipped lengths are right |
| AuthData.LooseLengthIsAccepted | backend/src/attest/app-attest.verifier.ts:200-206 | a value that is not DER is accepted |
| Attest.AttestService.NewChallenge | backend/src/attest/attest.service.ts:50-59 | one unconsumed challenge with its deadline; a device that does not exist is refused |
| Attest.AttestService.ConsumeChallenge | backend/src/attest/attest.service.ts:71-88 | the five verdicts of phase A and the one row it marks |
| Attest.AttestService.Conclude | backend/src/attest/attest.service.ts:103-175 | the device rows after each verdict; an error of check or trigger leaves them as they were |
| Attest.AssertionAcceptedExactlyWhen | backend/src/attest/app-attest.verifier.ts:134-142 | accepted are exactly the signed layouts for this app, without credential data, that count past the stored counter |
| Attest.AttestationAcceptedExactlyWhen | backend/src/attest/app-attest.verifier.ts:52-103 | accepted are exactly the genuine layouts for this app with a count of zero and credential data under the configured aaguid |
| Attest.VerdictAcceptedExactlyWhen | backend/src/attest/attest.service.ts:90-175 | accepted if and only if the platform's verdict is good and fits the device; then that device alone is attested until the configured time, with that client key, App Attest key and counter |
| Attest.OnlyGoodVerdictsAttest | backend/src/attest/attest.service.ts:90-175 | in every run each accepted verify carries a good verdict; a device is attested, and until when, by the last of them alone |
| Attest.ChallengeTakenExactlyWhen | backend/src/attest/attest.service.ts:71-88 | taken if and only if whole key, right device, unconsumed and in time; the other answers by their own conditions |
| Attest.IssuedChallengeServes | backend/src/attest/attest.service.ts:50-88 | an issued challenge serves exactly its device until its time is over |
| Attest.AcceptancesTakeChallenges | backend/src/attest/attest.service.ts:71-175 | in every run no device has more verifies accepted than challenges issued to it and consumed |
| Attest.ChallengeServesOnce | backend/src/attest/attest.service.ts:74-88 | over every run a challenge is consumed at most once, whatever becomes of the verification |
| Attest.CountersOnlyRise | db/schema.sql:75-89 | a device's counter never decreases and accepted assertions carry strictly increasing counts |
| Attest.NoAssertionIsAcceptedTwice | backend/src/attest/app-attest.verifier.ts:136-142 | two accepted assertions of a device differ |
| Attest.RegistrationNeedsUnusedCounter | db/schema.sql:75-89 | a registration is accepted if and only if the attestation is good, the key free and the counter still zero |
| Attest.AssertionEndsRegistration | db/schema.sql:75-89 | in every run, after an accepted assertion of a device no registration of it is accepted |
| Attest.NoRegistrationOnceMoved | db/schema.sql:75-89 | nor in any run from a state in which the counter has moved |
| Attest.BoundKeyIsLastAccepted | backend/src/attest/attest.service.ts:90-101 | the bound client key is that of the last accepted verify |
| Attest.KeysStayDistinct | backend/src/attest/attest.service.ts:136-141 | no App Attest key is registered to two devices |

## Left out

- Cryptography, CBOR, X.509, JWT and password hashing: verdicts come in as parameters.
- The panel clients' HTTP, token caching and timeouts; `DynamicPanelClient`, whose methods do not match the interface.
- Controllers, DTO checks, throttling, UI, tunnel code, the Flutter connection flow, the Telegram bot, settings storage, read-only queries.
- Columns never read back by the modelled code: audit timestamps, close reasons, error texts, `last_panel_sync_at`, credentials and inbound tags of sessions.
- WebClient.ClientIsNeverTakenForThief: one tab whose refresh answers all arrive; several tabs and lost answers are `SharedStorage`.
- Existence of users and devices behind sessions and grants (foreign keys), registration and anonymous sign-up.
- Subscriptions are not a table of the protocol: the plan a connect reads comes in as the rows of its query, so tier grants (`Subscriptions`) and store notifications are any change of those rows.
- SQL isolation is taken as atomic transactions that may also abort; no claim about deadlocks (bulk updates take no fixed lock order) and none about the order of rows a bulk update returns.
- One clock for database, server and panel, starting no earlier than one second into the epoch.
- Equality of panel and database expiry: extends of one session are not ordered; what is proved is that the panel is never ahead.
- Liveness when the panel stays down, and fairness between drainers.
- The awaits after a transaction (inline pushes, inline removals, provisioning) are steps of `Protocol`, not methods: a method could not be interrupted between them.
- Outbox.DrainedInTime: the figure in time is for ticks none of which is cut short; `DrainingEnds` has no such premise.
- Placement.LatestLimitHolds: a plan that allows no session is read as one, since the session just opened is never evicted.

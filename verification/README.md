# AgenticOrg authority and delivery core, modelled in Dafny

This project models the parts of AgenticOrg whose correctness rests on whole runs rather than on single calls: the
durable bridge request protocol, the run-grant authority pipeline, and the outbox, limiters, caches and checkers beside
them. Every claim below is a `lemma` or an `ensures` that `dafny verify dfyconfig.toml` checks. Nothing was executed.

How it is laid out, one module per file:

- `BridgeState`, `BridgeHistory`: the in-memory request repository, updated in place, and what every history of its
  operations keeps.
- `BridgeProtocol`, `BridgeInvariant`, `BridgeWakeup`, `BridgeTheorems`, `BridgeOutcomes`, `BridgeScenario`:
  `route_to_bridge`, `handle_bridge_response`, `handle_bridge_disconnect` and the broker as a transition system. A step is
  the code between two awaits; callers are program counters; any number of calls, pods, deliveries and responses
  interleave. `BridgeTheorems` is about publishing, waking and replaying, `BridgeOutcomes` about whose bridge a call
  uses, how it ends and what each branch does.
- `ConnectorRegistry`, `GrantModes`, `FeatureFlags`, `RunGrants`: which ids a connector goes by, which enforcement mode
  applies (through flag-store outages), which tokens a run carries and when a tool call is dispatched. Grantex is an
  arbitrary oracle that allows, refuses or raises.
- `GrantTokens`, `OrderedDict`, `TokenPool`, `Minting`, `GrantRevocation`, `GrantCluster`: the two-level grant cache,
  single-flight minting under interleaving, and revocation across nodes, one Redis command per step.
- `DemoDelivery`, `DeliveryRuns`: the outbox table and any interleaving of workers, crashes, re-enqueues and sweeps.
- `SessionState`, `RateWindow`, `FetchBudget`, `CallbackReplay`, `TokenBlacklist`: components that share one convention:
  time is a `real`, an entry set at t with lifetime d is alive through t + d.
- `Scopes`, `GpuPools`: two checkers whose loops are proved exact. `Prelude` holds shared vocabulary.

Where the source updates state in place there is a class whose methods are proved against a specification function, and
the theorems about runs are proved about that function.

Where the code does not give what its documentation or a reader would expect, the code is followed, a lemma gives a
concrete instance and another the exact condition:

- A bridge error with an empty text replays as "Bridge request failed": replay is faithful exactly for other payloads
  (`ReplayIsFaithful`, `BlankErrorReplaysDifferently`).
- A delivery to the wrong process, or one the socket refuses, is announced as one error and replayed as another
  (`NotLocalReplays`, `FailedSendReplays`).
- A reused explicit request id overwrites a finished record (`OutcomeKeptExactly`, `ReusedIdLosesOutcome`), so runs are
  taken with fresh ids; a second waiter of one process on one request makes the first miss its outcome
  (`AnnouncementReachesHolder`, `SecondWaiterLosesFirst`, and a whole run in `FirstMissesTheOutcome`), so the wake-up
  theorem takes one waiter per request and process.
- In isolated mode a supplied token replaces a required but missing caller token, although the documentation of
  `resolve_run_grant` says such a run refuses every call (`SuppliedStandsInForCaller`, `ResumedRunCanDispatch`); which
  resumed runs dispatch nothing, whatever Grantex says, is exact in `ResumedRefusedExactly` and `ResumedRefusedForEver`.
- Minting is single-flight per event loop, not per process: two loops can mint one key at once (`SingleFlightExactly`,
  `TwoLoopsMintTwice`).
- A Redis entry can outlive its grant's usable time by the time its write took (`RedisEntryExpiresInTime`,
  `OwnEntriesExpireInTime`, `SlowWriteOutlives`).
- A colon in a tenant id hides the agent's grants from the local eviction (`DroppedExactly`, `ColonTenantSurvives`).
- The session-state lag is documented as 30 seconds; the two caches add up to 60 (`BoundedStaleness`,
  `StaleForFiftyNine`). From a given moment 30 seconds hold exactly when neither Redis nor a lookup under way still has a
  row read before it (`ThirtyExactly`), as after an invalidation that reaches Redis with no lookup under way
  (`ThirtyAfterInvalidation`).
- The Redis rate window admits up to twice the limit less one, and no less for any limit (`FixedWindowBound`,
  `EdgeOfTwoWindows`).
- Replay protection of signed callbacks needs the nonce store to be reached in time (`SecondOkNeedsLatency`,
  `AcceptedExactly`, `LateClaimIsAccepted`).
- A revoked token without an `exp`, or with a textual one beyond the floor, is honoured again (`ComesBackExactly`,
  `NoExpiryComesBack`).
- The clone-scope ceiling can fail for amounts (`CeilingWithAmounts`, `AdminCloneEscapesCap`).

## Model

| member | source | states |
|---|---|---|
| `Prelude.JoinSplit` | auth/run_grants.py:404-404 | what `str.split` loses: nothing, joining the parts gives the text back |
| `BridgeState.FindOperation` | bridge/state.py:371-378 | the search finds a record of the same tenant, bridge and key if there is one, else there is none |
| `BridgeState.BridgeStateRepository.CreateRequest` | bridge/state.py:359-395 | in place: the existing record of a repeated key, else a new pending record at the end (an existing id is overwritten) |
| `BridgeState.BridgeStateRepository.SearchOperation` | bridge/state.py:371-378 | the loop over the records returns the first of the same operation |
| `BridgeState.BridgeStateRepository.GetRequest` | bridge/state.py:397-406 | a record of another tenant is invisible |
| `BridgeState.BridgeStateRepository.MarkSentInPlace` | bridge/state.py:408-424 | only a pending record becomes sent |
| `BridgeState.BridgeStateRepository.RecordDuplicate` | bridge/state.py:515-526 | counts one more duplicate, keeps the other metadata and the outcome |
| `BridgeState.BridgeStateRepository.MarkRespondedInPlace` | bridge/state.py:426-448 | finishes an unfinished record with the result and reports it; a finished one only gains a duplicate |
| `BridgeState.BridgeStateRepository.MarkFailedInPlace` | bridge/state.py:450-473 | the same for failures |
| `BridgeState.BridgeStateRepository.MarkTimedOutInPlace` | bridge/state.py:475-491 | only an active record times out |
| `BridgeState.BridgeStateRepository.MarkBridgeRequestsOrphaned` | bridge/state.py:493-513 | orphans exactly the active records of the bridge and tenant and returns their ids |
| `BridgeHistory.CreateKeeps` | bridge/state.py:371-395 | creating with a fresh id keeps one record per key and every other record |
| `BridgeHistory.StepKeeps` | bridge/state.py:359-526 | every operation that overwrites nothing keeps the table sound and lets each record only evolve |
| `BridgeHistory.WriteOnce` | bridge/state.py:408-526 | between any two moments of a history a record moves only pending, sent, terminal; a terminal status, result and error never change, and a result is stored exactly when responded |
| `BridgeHistory.OutcomeKeptExactly` | bridge/state.py:394-394 | one operation keeps a finished outcome if and only if it is not a creation that reuses the id |
| `BridgeHistory.ReusedIdLosesOutcome` | bridge/state.py:379-395 | an instance: create, respond, create with the same id, and the outcome is gone |
| `BridgeHistory.FinishedByOneCall` | bridge/state.py:426-473 | over any history exactly one `mark_responded`/`mark_failed` reports a transition if the request ends answered, otherwise none |
| `BridgeHistory.DuplicatesAreLateMarks` | bridge/state.py:439-441 | under the metadata the handler sends, the stored duplicate count is the number of response marks that came after the outcome |
| `BridgeHistory.TenantsStayApart` | bridge/state.py:397-513 | a record of another tenant is neither returned nor changed, and an operation on one record leaves every other as it was |
| `BridgeHistory.MarksExactly` | bridge/state.py:408-491 | what a mark does to a record it sees: a pending one is sent, an unfinished one takes the outcome and metadata given, a finished one keeps its outcome |
| `BridgeHistory.LateMarkNoted` | bridge/state.py:515-526 | a late mark's metadata is noted beside the outcome's own, which stays |
| `BridgeHistory.OrphansExactly` | bridge/state.py:493-513 | a disconnect orphans exactly the unfinished requests of its bridge and tenant |
| `BridgeHistory.CreateExactly` | bridge/state.py:359-395 | a usable key the tenant and bridge already have gives that record back and changes nothing, anything else is a new pending record |
| `BridgeProtocol.ReadingExactly` | bridge/server_handler.py:365-419 | which frames are read as an answer, which as a bridge error, with which text, and that every other frame is malformed |
| `BridgeProtocol.FrameMetadata` | bridge/server_handler.py:366-369 | the handler's metadata never holds the duplicate counter |
| `BridgeInvariant.StepKeepsInv` | bridge/server_handler.py:255-636 | every step of every interleaving keeps the protocol invariant |
| `BridgeInvariant.RunKeepsInv` | bridge/server_handler.py:255-636 | so it holds in every reachable state (whose tenant a call serves is in `BridgeOutcomes.OwnTenantOnly`) |
| `BridgeWakeup.RunWaits` | bridge/server_handler.py:546-588 | with one waiter per request and process, every waiting call holds its slot and its subscription in every reachable state |
| `BridgeTheorems.PublisherCreatedTheRecord` | bridge/server_handler.py:513-601 | only the call whose own id the record has publishes it, under the record's tenant, bridge and key |
| `BridgeTheorems.PublishedOncePerKey` | bridge/server_handler.py:524-601 | at most one `post_xml` is ever published per tenant, bridge and idempotency key, over every interleaving |
| `BridgeTheorems.SentOncePerKey` | bridge/server_handler.py:284-331 | nor is it ever written to a bridge socket twice |
| `BridgeTheorems.NoLostWakeup` | bridge/server_handler.py:546-588 | a call still waiting with its future unset was never announced an outcome, except an original caller answered before its `post_xml` existed |
| `BridgeTheorems.AnnouncementReachesHolder` | bridge/server_handler.py:434-437 | a response reaches a subscribed call if and only if its process's slot for the request is its own |
| `BridgeTheorems.SecondWaiterLosesFirst` | bridge/server_handler.py:546-547 | a second joining call of one process takes the slot and the first misses the announcement |
| `BridgeScenario.FirstMissesTheOutcome` | bridge/server_handler.py:513-588 | a whole run that gets there: the request is answered and announced, the second call is told, the first still waits |
| `BridgeTheorems.EndingReplays` | bridge/server_handler.py:445-471 | what a replay answers for each way a request can end |
| `BridgeTheorems.RunEvolves` | bridge/server_handler.py:255-636 | over any run of the protocol the durable records only evolve |
| `BridgeTheorems.ReplayIsFaithful` | bridge/server_handler.py:370-471 | a payload a call returned for a responded, `bridge_error` or `malformed_response` request is what the record replays at every later moment, if and only if it is not an empty error text |
| `BridgeTheorems.OneAnswerPerKey` | bridge/server_handler.py:524-583 | all calls of one key that get a bridge answer get the same one |
| `BridgeTheorems.BlankErrorReplaysDifferently` | bridge/server_handler.py:455-465 | an instance of the exception |
| `BridgeOutcomes.RunProper` | bridge/server_handler.py:474-636 | in every reachable state each call is on its own tenant's bridge, ends only once its request is finished, and with the stored outcome, an announced one or an error of its own |
| `BridgeOutcomes.OwnTenantOnly` | bridge/server_handler.py:485-601 | over every run a call made for a tenant uses only a bridge of that tenant, and its record and all it publishes carry that tenant |
| `BridgeOutcomes.ForeignBridgeRefused` | bridge/server_handler.py:485-511 | over every run a call for a tenant that names a bridge unregistered or another tenant's throughout gets no record, publishes nothing and can end only with one of the two refusals |
| `BridgeOutcomes.MismatchExactly` | bridge/server_handler.py:490-505 | it is a tenant mismatch if and only if the bridge is then registered to another tenant |
| `BridgeOutcomes.VisibleBridgeUsed` | bridge/server_handler.py:485-511 | a bridge the call may see, of its tenant or of any if it names none, is used, and no other |
| `BridgeOutcomes.EndsExplained` | bridge/server_handler.py:474-636 | how every call of every run ends, with a record and without one, and that its own id was then never used |
| `BridgeOutcomes.OriginalExactly` | bridge/server_handler.py:513-528 | a call publishes rather than joins if and only if its tenant and bridge had no record of its usable key |
| `BridgeOutcomes.ConnectedExactly` | bridge/state.py:76-83 | a bridge takes requests while active or connected and heard of in the last 120 seconds, if ever |
| `BridgeOutcomes.AfterCreateExactly` | bridge/server_handler.py:529-547 | a finished record is replayed at once, an unfinished one waited for, or refused over a bridge that is not connected |
| `BridgeOutcomes.FailureCodes` | bridge/server_handler.py:532-634 | which error each failing branch raises |
| `BridgeOutcomes.OwnFailureReplays` | bridge/server_handler.py:532-619 | a call's own failure is what the record replays to later calls, unless the request had finished already |
| `BridgeOutcomes.PublishReachesListener` | bridge/server_handler.py:590-601 | a publication reaches the bridge's subscriber if there is one, with this call's request, tenant and bridge |
| `BridgeOutcomes.DeliveryEndsTold` | bridge/server_handler.py:284-351 | a delivery is only dropped once its request was written to the socket or its failure announced |
| `BridgeOutcomes.LocalDeliverySends` | bridge/server_handler.py:305-331 | a delivery to the right process marks a pending request sent and goes on to the socket |
| `BridgeOutcomes.NotLocalReplays` | bridge/server_handler.py:288-303 | a delivery to the wrong process is announced as a disconnect and replayed as a raised `bridge_not_local` |
| `BridgeOutcomes.FailedSendReplays` | bridge/server_handler.py:332-351 | a failed write is announced with one text and replayed with the socket's own |
| `BridgeOutcomes.FirstAnswerAnnounced` | bridge/server_handler.py:354-431 | the first visible answer to an unfinished request is the one that gets announced, and no other |
| `BridgeOutcomes.OrphansToldOf` | bridge/server_handler.py:266-281 | a disconnect tells the waiters of exactly the requests it orphaned |
| `BridgeOutcomes.HolderTold` | bridge/server_handler.py:271-442 | the call that holds the slot gets the disconnect, or the answer its process received |
| `BridgeOutcomes.ResumesWithIt` | bridge/server_handler.py:619-621 | and returns or raises exactly that |
| `ConnectorRegistry.IdsOf` | connectors/registry.py:46-55 | the name first, no repeats, and exactly the name, its live id and the ids retired in favour of it |
| `ConnectorRegistry.LinkedIsSameLive` | connectors/registry.py:34-55 | in a settled registry linked means having the same live id, so the link is an equivalence |
| `ConnectorRegistry.LinkCanBeOneWay` | connectors/registry.py:40-55 | without that a link may hold one way only |
| `GrantModes.Stricter` | auth/grant_enforcement.py:146-147 | the least upper bound of off < warn < deny |
| `GrantModes.TenantRowOnlyRaises` | auth/grant_enforcement.py:205-212 | whatever a tenant's rows are, the mode is at least the default and what the global rows give |
| `GrantModes.RowsDecide` | core/feature_flags.py:250-259 | with buckets 0 to 99 a flag is in force exactly for the tenants whose bucket an enabled row's percentage reaches, and the mode is the strictest of those and the default |
| `GrantModes.ModeResolver.Remember` | auth/grant_enforcement.py:159-164 | a full map gives up one oldest tenant, and stays bounded |
| `GrantModes.ModeResolver.ResolveMode` | auth/grant_enforcement.py:185-231 | the join on success (and remembered), the default or last known mode or deny on failure; `RowsDecide` and `OutageAnswersExactly` say what that is in the rows' own terms |
| `GrantModes.OutageNeverWeakens` | auth/grant_enforcement.py:197-231 | over any run a failed lookup answers at least as strictly as anything answered to the tenant since its last successful one, despite eviction and expiry |
| `GrantModes.OutageAnswersExactly` | auth/grant_enforcement.py:150-231 | below the memory's bound an outage answers, for an hour, the stricter of the default and the last answer, and deny from then on |
| `GrantModes.UnknownTenantDenied` | auth/grant_enforcement.py:213-231 | a tenant never resolved is denied during an outage |
| `FeatureFlags.FlagCache.StoreCache` | core/feature_flags.py:72-89 | a full cache drops what has expired, then what expires first; nothing else is lost and the bound holds |
| `FeatureFlags.FlagCache.Load` | core/feature_flags.py:128-300 | hit, fetch and store, strict failure (raises, uncached) and lenient failure (cached); the store reads the clock again |
| `FeatureFlags.StrictLookupIsTruthful` | core/feature_flags.py:190-300 | over any interleaving of lookups a strict one never answers from a failure, and what it answers was the database's content less than 30 s before it began, or since |
| `FeatureFlags.KeptForThirty` | core/feature_flags.py:128-300 | what a lookup fetched serves the lookups of the key for thirty seconds from its start, a lenient failure only lenient ones |
| `FeatureFlags.SteadyRowsAnswered` | core/feature_flags.py:190-300 | thirty seconds after the rows last changed every strict lookup answers them, the tenant's own first where only one is asked for |
| `FeatureFlags.EnforcementTakesHold` | core/feature_flags.py:262-300 | so thirty seconds after enforcement is turned on, for everyone or the tenant, every resolution that can read the flags denies |
| `RunGrants.Enforce` | auth/grant_enforcement.py:406-416 | allows if and only if some linked id is allowed and every id before it was refused (an exception ends the search) |
| `RunGrants.ToolScopeDenial` | auth/run_grants.py:389-413 | denies if and only if every scope for the connector names a tool, some does, and none names this one |
| `RunGrants.RefreshKeepsBinding` | auth/run_grants.py:346-386 | any number of refreshes changes the run's own pool token and nothing else it is judged by |
| `RunGrants.DispatchExactly` | auth/run_grants.py:416-473 | when a call is dispatched, exactly: missing tokens and exceptions are never an allow; `DispatchByAnyId` says it in terms of the registry |
| `RunGrants.AllowedUnderAnyId` | auth/grant_enforcement.py:406-416 | in a settled registry a token is allowed if and only if Grantex allows it under some id with the connector's live id; a remote MCP connector is asked under its own only |
| `RunGrants.DispatchByAnyId` | auth/run_grants.py:416-473 | when a call is dispatched, in those terms, for the caller's token and for the run's own |
| `RunGrants.DenialsAreStated` | auth/run_grants.py:416-473 | a refused call carries a reason, and a reason without refusal happens in warn only |
| `RunGrants.ScopeReads` | auth/run_grants.py:403-412 | how a registered scope text is read: its kind, connector and the tool it narrows to |
| `RunGrants.OwnTokenOrder` | auth/run_grants.py:195-343 | whose token a run carries: supplied, else its own agent's as caller, else the configured, else the pool's; in isolation the pool's only |
| `RunGrants.PoolGrantIsBound` | auth/run_grants.py:309-343 | a run on a pool grant is held to the agent's registered scopes and to that grant's lifetime |
| `RunGrants.RefreshedIsUsable` | auth/run_grants.py:346-386 | a refresh leaves the minimum lifetime, and does not touch a grant that has it |
| `RunGrants.StripCuts` | auth/run_grants.py:218-219 | what `strip` cuts: spaces, at the two ends only |
| `RunGrants.CallerTokenIsBound` | auth/run_grants.py:218-266 | a caller's token is kept beside the run's grant, or is the run's grant for its own agent, or clashes and leaves none |
| `RunGrants.CallerTokenMustAllow` | auth/run_grants.py:195-473 | in warn and deny a run started with a caller's token dispatches only if Grantex allows that token, asked about on its own unless the caller is the run's own agent |
| `RunGrants.DenyNeedsOwnGrant` | auth/run_grants.py:195-473 | in deny the run's own grant must be allowed too, its scopes cover the tool, and another agent's caller token is asked for in addition |
| `RunGrants.StrandedRunDispatchesNothing` | auth/run_grants.py:257-265 | a run whose required caller token is missing dispatches nothing, whatever Grantex would say |
| `RunGrants.RefusedExactly` | auth/run_grants.py:416-473 | a grant in deny dispatches nothing, for any oracle, registry, connector and tool, if and only if it has no token of its own or its caller is unavailable |
| `RunGrants.ResumedRefusedExactly` | auth/run_grants.py:224-266 | a run resumed without its required caller token dispatches nothing, at a given point of its refreshes, if and only if it is stranded or has no token of its own there |
| `RunGrants.ResumedRefusedForEver` | auth/run_grants.py:224-386 | and at every point if and only if it is stranded, or has no grant and no refresh can give it one |
| `RunGrants.ResumeNeedsTheSameCaller` | auth/run_grants.py:158-171 | a run that recorded a caller and is resumed by anyone else dispatches nothing |
| `RunGrants.ResumedBySameCaller` | auth/run_grants.py:158-171 | one resumed by that very caller is judged as the caller's own |
| `RunGrants.SuppliedStandsInForCaller` | auth/run_grants.py:224-232 | in isolated mode a supplied token is treated exactly as the caller's |
| `RunGrants.ResumedRunCanDispatch` | auth/run_grants.py:224-266 | an instance where such a run dispatches |
| `RunGrants.WarnKeepsLegacyChecks` | auth/run_grants.py:88-98 | warn never weakens the check of a supplied or configured token |
| `GrantTokens.MinRemaining` | auth/token_pool.py:59-61 | the least number of seconds that is at least 120 and a tenth of the lifetime |
| `TokenPool.CachedGrant` | auth/token_pool.py:345-384 | a grant returned is usable now and is, apart from its source, the Redis one if that is usable, else the local one of the key; nothing is returned only when neither is |
| `TokenPool.RedisEntryExpiresInTime` | auth/token_pool.py:395-410 | the Redis entry goes by the end of the grant's usable time if and only if the write took no longer than the fraction of a second the truncation dropped; at worst it is late by the write's time |
| `TokenPool.StoreLocalValid` | auth/token_pool.py:386-394 | the local cache keeps the new grant, stays bounded and alters no other entry |
| `TokenPool.StoreDropsOldest` | auth/token_pool.py:391-394 | a store drops exactly the grant stored longest ago, from a full cache and for a new key |
| `TokenPool.MintLockValid` | auth/token_pool.py:322-343 | the lock map stays bounded, gives a known key its lock, and drops only an idle one |
| `TokenPool.Pool.StoreGrant` | auth/token_pool.py:386-394 | in place: the trimming loop drops exactly the oldest entry past the bound |
| `TokenPool.Pool.LookUp` | auth/token_pool.py:345-359 | in place: an unusable local grant is dropped |
| `TokenPool.Pool.LockFor` | auth/token_pool.py:322-343 | in place: the lock map as specified |
| `Minting.SingleFlight` | auth/token_pool.py:296-308 | while the lock map has room, two calls of one cache key are both between taking the lock and storing only if they run on different event loops |
| `Minting.SingleFlightExactly` | auth/token_pool.py:322-343 | no run with calls on the given loops has two mints of a key in progress, if and only if those loops are one |
| `Minting.TwoLoopsMintTwice` | auth/token_pool.py:329-330 | for any two loops and any key, a run in which both mint |
| `Minting.MintOnlyWhenNothingUsable` | auth/token_pool.py:301-306 | a mint starts only when the read under the lock and the local cache gave nothing usable |
| `Minting.CachedIsUsed` | auth/token_pool.py:345-384 | a first look hands out the live Redis entry of the key if usable, else the process's own, and goes for the lock only when there is neither |
| `Minting.HandedOutIsUsable` | auth/token_pool.py:83-88 | every cached grant handed out has its minimum lifetime left; both maps stay bounded |
| `Minting.HandedOutWasIssued` | auth/token_pool.py:283-412 | over every run each grant handed out, token, id and lifetime, was minted by a call of its own cache key or stored under it by another process |
| `Minting.OwnEntriesExpireInTime` | auth/token_pool.py:386-412 | in every reachable state an entry this process wrote goes by the end of the grant's usable time plus its own write's delay, and by that end exactly when the delay is within the dropped fraction |
| `Minting.SlowWriteOutlives` | auth/token_pool.py:398-410 | a run that leaves an entry half a second too long |
| `GrantRevocation.RecognisedExactly` | auth/token_pool.py:310-320 | a run-grant key is taken for its agent's exactly when the ids hold no colon, or the tenant's second part is the agent |
| `GrantRevocation.PopAll` | auth/token_pool.py:525-532 | pops exactly the given keys and notes each distinct token once |
| `GrantRevocation.SharedRedis.Forget` | auth/token_pool.py:547-567 | the Redis half: scan and delete, delegated grant, broadcast |
| `GrantRevocation.Node.EvictLocalAgentGrants` | auth/token_pool.py:525-532 | drops every local grant recognised as the agent's and returns their tokens |
| `GrantRevocation.Node.RevokeAgentGrants` | auth/token_pool.py:534-576 | undisturbed: each distinct token found goes to the revoker exactly once, in the log kept call by call; evicted = revoked + failed; Redis and the broadcast as specified |
| `GrantRevocation.Node.HandleRevocation` | auth/token_pool.py:659-667 | a broadcast drops the agent's own token and this node's grants of the agent |
| `GrantRevocation.RevokeEach` | auth/token_pool.py:569-576 | gives the revoker exactly the tokens, in order, and counts its approvals and refusals |
| `GrantRevocation.DroppedExactly` | auth/token_pool.py:525-532 | which of an agent's grants a node drops |
| `GrantRevocation.ColonTenantSurvives` | auth/token_pool.py:528-528 | an instance that survives |
| `GrantRevocation.OthersKept` | auth/token_pool.py:525-556 | with ids without colons a node drops exactly the agent's grants, and the scan exactly the agent's in that tenant; every other keeps its value |
| `GrantCluster.StepKeeps` | auth/token_pool.py:525-576 | every step of every interleaving keeps what a revocation in progress owes and has cleared |
| `GrantCluster.NothingRemains` | auth/token_pool.py:525-667 | over every run, with lookups, drops, expiry, stores, lost messages, Redis failures and other revocations in between: once a revocation has broadcast and every node has handled it, no run grant of the tenant and agent cached when it started is left in Redis or, if the ids hold no colon, on any node |
| `GrantCluster.NothingAtAll` | auth/token_pool.py:525-667 | and none at all if none was stored meanwhile |
| `GrantCluster.EachTokenAskedOnce` | auth/token_pool.py:569-576 | every token a revocation noted goes to the revoker exactly once, and every call is counted |
| `GrantCluster.StepNotes` | auth/token_pool.py:525-562 | the token of every grant evicted at the start, read in the scan, or delegated is noted |
| `GrantCluster.UndisturbedRevocation` | auth/token_pool.py:534-563 | undisturbed, the steps do what the single call promises |
| `GrantCluster.OnlyOwnDropped` | auth/token_pool.py:525-576 | over any interleaving no revocation removes a grant of another agent |
| `DemoDelivery.Outbox.Prepare` | core/demo_delivery.py:35-46 | a new row, due at once, with every step pending but the agent's for Grantex |
| `DemoDelivery.Outbox.Enqueue` | core/demo_delivery.py:49-68 | leases a due job for five minutes; true only when leased and delivered |
| `DemoDelivery.Outbox.Claim` | core/demo_delivery.py:71-80 | moves a pending step to processing for exactly one caller |
| `DemoDelivery.Outbox.Finish` | core/demo_delivery.py:83-92 | only a processing step takes the status and the error |
| `DemoDelivery.Outbox.DispatchOne` | core/demo_delivery.py:95-133 | undisturbed, every pending step ends with its outcome and its error code, the others and other jobs are untouched, and only those steps are reported |
| `DemoDelivery.OutcomesMean` | core/demo_delivery.py:103-131 | what each status and error code means: an e-mail is accepted only if the server took it, a refused or failed one ends failed, with its code |
| `DemoDelivery.Outbox.Sweep` | core/demo_delivery.py:136-161 | gives up on stale steps, leases at most fifty due jobs, each at its own clock reading, and counts those the broker took |
| `DemoDelivery.DueBounded` | core/demo_delivery.py:152-157 | the selection is bounded, distinct, and holds only due jobs |
| `DemoDelivery.DueEarliest` | core/demo_delivery.py:152-157 | a due job is left out only when the limit is reached by earlier ones |
| `DemoDelivery.SweptExactly` | core/demo_delivery.py:142-151 | a sweep turns exactly the processing steps of jobs untouched for over fifteen minutes to unknown, and touches nothing else |
| `DeliveryRuns.AtMostOnce` | core/demo_delivery.py:71-133 | under any interleaving no step is claimed twice and no external action is started twice, or without a claim |
| `DeliveryRuns.StatusIsHonest` | core/demo_delivery.py:101-133 | an accepted status was acted on, a pending or skipped one never, and the sales agent only ran for a non-Grantex enquiry with a lead |
| `DeliveryRuns.StatusesOnlyAdvance` | core/demo_delivery.py:71-151 | over a whole run a status moves only pending, processing, settled, and a settled one never changes |
| `DeliveryRuns.LateReportChangesNothing` | core/demo_delivery.py:83-92 | a report after the step was given up on changes nothing in the table; otherwise the step takes the reported status |
| `DeliveryRuns.LeasesApart` | core/demo_delivery.py:52-58 | two successful leases of one job are at least five minutes apart, whatever the clocks |
| `DeliveryRuns.GivenUpOnlyWhenOld` | core/demo_delivery.py:142-151 | with one monotone clock a sweep gives up only on steps claimed more than fifteen minutes before |
| `SessionState.RoundTrip` | core/auth_state.py:387-402 | an encoded state reads back exactly when its status has no bar; otherwise the read fails and never yields another state |
| `SessionState.RejectsExactly` | core/auth_state.py:362-379 | which sessions are refused and why: missing row, inactive status, or a watermark in or after the second following the issue (or no issue time) |
| `SessionState.WholeSecondRevokedExactly` | core/auth_state.py:374-378 | an active row with watermark w revokes a session of whole second t if and only if t + 1 <= w |
| `SessionState.BoundedStaleness` | core/auth_state.py:431-476 | whatever any replica answers at t was the users row in [t - 60 - d, t], d bounding one lookup's duration, through Redis failures and invalidations |
| `SessionState.RevokedEverywhere` | core/auth_state.py:362-379 | a session whose row is missing, inactive or watermarked past its issue from t0 on is refused by every answer after t0 + 60 + d, and one the row admits is admitted |
| `SessionState.ThirtyExactly` | core/auth_state.py:431-494 | from a reachable moment on, some continuation answers 30 s later or more with a row read before it, if and only if Redis or a lookup under way still holds such a row |
| `SessionState.ThirtyAfterInvalidation` | core/auth_state.py:479-494 | after an invalidation that reaches Redis with no lookup under way, answers 30 s later were read after it |
| `SessionState.StaleForFiftyNine` | core/auth_state.py:453-456 | a run in which an answer is 59 s old |
| `SessionState.SessionCache.GetUserSessionState` | core/auth_state.py:431-476 | in place: memory, Redis read, row, Redis write, each of which may fail, for one key and no other |
| `SessionState.SessionCache.Invalidate` | core/auth_state.py:479-494 | drops the memory entry and, when reachable, the Redis entry |
| `SessionState.CallRefinesSteps` | core/auth_state.py:431-476 | the single call and the interleaved steps agree on caches and answer |
| `SessionState.LookupsInARow` | core/auth_state.py:431-476 | a row read serves this process for thirty seconds whatever is reachable, and another process through Redis; after that the row is read, or the failure raised or passed on |
| `RateWindow.MemoryWindow.CheckWindowRate` | core/auth_state.py:331-337 | the filter loop and the decision, for one key |
| `RateWindow.RedisWindow.CheckWindowRate` | core/auth_state.py:310-328 | undisturbed: INCR, then EXPIRE at its own later time on the first count, block above the limit; raising when the store fails |
| `RateWindow.SlidingWindowBound` | core/auth_state.py:331-337 | over any history with a monotone clock at most `limit` calls pass in any half-open interval of the window's length |
| `RateWindow.AdmittedExactly` | core/auth_state.py:331-337 | a call is let through if and only if fewer than `limit` were in the window that ends at it |
| `RateWindow.FixedWindowBound` | core/auth_state.py:319-323 | for any interleaving of INCRs and EXPIREs from any replicas, at most 2 * limit - 1 calls pass in any half-open interval of the window's length, and none for a limit of zero or less |
| `RateWindow.EdgeOfTwoWindows` | core/auth_state.py:319-323 | for every limit and window a history that reaches that bound |
| `FetchBudget.FetchBudgetGate.TryAcquire` | auth/httpsig_keys.py:129-137 | refill, cap, spend |
| `FetchBudget.FetchBudgetGate.ReleaseSlot` | auth/httpsig_keys.py:139-140 | one slot back, never below zero |
| `FetchBudget.HistoryKeeps` | auth/httpsig_keys.py:118-140 | in every history tokens stay within [0, burst] and the cap is never exceeded |
| `FetchBudget.BucketBound` | auth/httpsig_keys.py:129-137 | in any interval of length d at most burst + rate * d acquisitions succeed |
| `FetchBudget.GrantedExactly` | auth/httpsig_keys.py:129-137 | a fetch is let through if and only if a slot is free and one more keeps burst + rate * d on every interval up to now |
| `FetchBudget.InFlightExact` | auth/httpsig_keys.py:237-254 | slots in use are acquisitions less releases, and starts never exceed finishes by more than the cap |
| `CallbackReplay.NonceStore.SetIfAbsent` | auth/aa_callback_signing.py:215-219 | set if absent, with the nonce's lifetime |
| `CallbackReplay.NonceStore.VerifyCallback` | auth/aa_callback_signing.py:147-235 | every check in order, then the claim; strict and relaxed store failure |
| `CallbackReplay.AcceptedExactly` | auth/aa_callback_signing.py:211-219 | a well-formed delivery is accepted if and only if every earlier accepted claim of its nonce lies more than ten minutes back |
| `CallbackReplay.SecondOkNeedsLatency` | auth/aa_callback_signing.py:66-72 | a second ok for one timestamp and nonce needs more latency than the first's whole slack |
| `CallbackReplay.NeverTwice` | auth/aa_callback_signing.py:196-219 | with a secret, strict, and a store reached at the clock reading, no run accepts one timestamp and nonce twice |
| `CallbackReplay.OkExactly` | auth/aa_callback_signing.py:147-235 | accepted if and only if: without a secret the bypass is on; with one the request is signed over its own parts, fresh to five minutes, its nonce 1 to 128 ASCII characters, and not held by the store (or, relaxed, the store is down) |
| `CallbackReplay.LateClaimIsAccepted` | auth/aa_callback_signing.py:215-219 | half a second of latency is enough for a replay of the earliest delivery |
| `TokenBlacklist.TtlFor` | auth/jwt.py:48-61 | at least the floor, past the expiry despite truncation, and no more than 100 seconds past it beyond the floor |
| `TokenBlacklist.Memory.Remember` | auth/jwt.py:80-90 | bounded: below the bound nothing is lost, at the bound what has expired, failing that the entry that expires first |
| `TokenBlacklist.SharedBlacklist.BlacklistToken` | auth/jwt.py:139-175 | strict: written with its lifetime, or raises |
| `TokenBlacklist.SharedBlacklist.ValidateToken` | auth/jwt.py:326-349 | strict: refused when listed, unreachable, expired or not genuine |
| `TokenBlacklist.RevokedForGood` | auth/jwt.py:139-349 | once revoked, a token with a numeric expiry is never validated again, over any run and any latencies |
| `TokenBlacklist.UnrevokedAccepted` | auth/jwt.py:326-349 | a token never revoked is accepted exactly while Redis answers, its claims verify and its expiry has not come |
| `TokenBlacklist.ComesBackExactly` | auth/jwt.py:48-61 | which tokens are accepted again at some later moment, exactly |
| `TokenBlacklist.NoExpiryComesBack` | auth/jwt.py:55-60 | an instance |
| `Scopes.CheckScope` | auth/scopes.py:62-83 | the early-return search decides by the first readable matching scope |
| `Scopes.AllowedExactly` | auth/scopes.py:62-83 | a call is allowed if and only if the first scope that speaks for it is an admin scope or leaves room for the amount |
| `Scopes.ValidateCloneScopes` | auth/scopes.py:86-129 | the nested loops collect, in order, each child scope's violation |
| `Scopes.CleanExactly` | auth/scopes.py:86-129 | a clone is clean if and only if each of its readable scopes has a first matching parent scope whose non-zero cap it does not exceed |
| `Scopes.Ceiling` | auth/scopes.py:62-129 | without amounts, whatever a clean clone may do its parent may do |
| `Scopes.CeilingWithAmounts` | auth/scopes.py:77-124 | with amounts this holds if and only if the parent's deciding scope is unlimited, or the child's is capped, no admin scope, and a zero parent cap meets a zero child cap |
| `Scopes.AdminCloneEscapesCap` | auth/scopes.py:118-124 | an instance where it fails |
| `GpuPools.SortSorts` | core/config.py:176-176 | the sort orders by provider, pool and start, and rearranges |
| `GpuPools.NeighboursSuffice` | core/config.py:177-180 | on a sorted list no two entries share an hour if and only if no neighbours clash |
| `GpuPools.ParseExactly` | core/config.py:160-181 | well-formed entries are accepted, in their own order, if and only if no two cover the same hour of one pool |
| `GpuPools.NamedPoolClashes` | core/config.py:176-180 | the refusal names a pool that two of the entries share an hour of |
| `GpuPools.ReadExactly` | core/config.py:142-145 | the items are read exactly when each is well-formed and ends after it starts |

## Left out

- `SqlAlchemyBridgeStateRepository`, `RedisBridgeBroker`, the WebSocket handshake and the bridge agent: they repeat the in-memory transitions through libraries or are socket plumbing.
- Bridge records: timestamps, connector type, method and payload hash are dropped, and a caller-supplied metadata value under the duplicate counter that is not a number is not modelled.
- Bridge sessions: connect, heartbeat and disconnect are one step that may set a session to anything at any time; one live request subscription per bridge.
- bridge/server_handler.py: `_pending_requests`, `_active_bridges` and the futures are fields of the protocol state rather than class fields, since every step of every process interleaves over them.
- Exception texts of `BridgeRouteError` other than the replayed ones, logging, metrics and message wording.
- The remote-MCP branch of `enforce_connector_grant`: its answer is the oracle's, asked under the one id.
- `classify_enforce_result` and denial records: a denial carries its kind, not its text.
- `TokenPool._registered_scopes`, `_mint_run_grant`, `_refresh_after` and the revocation listener's retries: a mint is a grant or a failure.
- GrantRevocation.Node.RevokeAgentGrants: is the call without interference or a Redis failure in the middle of the scan; `GrantCluster` has both. Neither models pattern characters in ids given to the scan, or the exception a stored JSON value that is not an object raises.
- GrantRevocation.SharedRedis.Forget: is one undisturbed pass over Redis, which `GrantCluster` takes one command at a time.
- GrantCluster.NothingRemains: speaks of grants cached when the revocation started; a grant minted before and stored after it is a new entry, which the source does not catch either.
- BridgeState.BridgeStateRepository.RecordDuplicate: omits the `last_duplicate_at` stamp, like every timestamp of a record.
- BridgeProtocol.FrameMetadata: omits the `received_at` stamp.
- Minting.SingleFlight: holds while the lock map has room; beyond that the source itself allows a second mint.
- `_query_flag` sessions and SQL; a database read is one moment.
- DemoDelivery: every row belongs to the marketing tenant (other tenants raise or match nothing), the payload is read as its product and lead and encryption is not modelled.
- RateWindow: the relaxed runtime's switch from Redis to memory in the middle of a history; each form is bounded on its own.
- SessionState: the memory dictionary's own growth and collisions of the hashed key.
- TokenBlacklist: signatures, audience, issuer and JWKS are one oracle per token and moment; the relaxed runtime is modelled only as its bounded memory.
- `parse_scope`'s regular expression: `Scopes` holds for any parser.
- `parse_spend_gpu_pools`: JSON reading and the field checks other than the hours are one malformed case; models and node counts do not matter to the check.
- Floats are reals, so rounding inside `0.1 * ttl`, token refills and clock differences is not modelled; integers are unbounded as in Python.
- `api/`, route tables, CSRF and middleware lists, settings, agent catalogues, e-mail and model plumbing: finite tables, wiring or I/O.

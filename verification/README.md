# The concurrency kernel of the Free Claude Code gateway, in Dafny

The gateway runs on asyncio, so the code between two `await`s is one atomic step. Each component below
is a transition system over such steps, with a step for every section of the code and every way an
await can end, and a class whose methods mutate their fields as the program's do and refine those
steps. Invariants are proved step by step, and the theorems speak of every run, of any length, with
any number of tasks.

| component | files |
|---|---|
| strict sliding window | `RateLimit.dfy` |
| provider admission and recovery | `AdmissionModel.dfy`, `AdmissionSafety.dfy`, `AdmissionTheorems.dfy`, `AdmissionResources.dfy`, `AdmissionDeadlock.dfy`, `AdmissionRecovery.dfy`, `ProviderAdmission.dfy` |
| provider generations and leases | `GenerationModel.dfy`, `GenerationSafety.dfy`, `GenerationTheorems.dfy`, `GenerationShutdown.dfy`, `GenerationProgress.dfy`, `ProviderManager.dfy`, `ResponseLifetime.dfy` |
| pending voice registry | `MessageScopes.dfy`, `VoiceModel.dfy`, `VoiceTheorems.dfy`, `PendingVoices.dfy` |
| compacting delivery queue | `DeliveryQueue.dfy`, `MessagingLimiter.dfy` |
| stream commit boundary | `StreamRecovery.dfy` |
| managed session index | `SessionIndex.dfy` |
| stop and clear fences | `AdmissionFences.dfy` |
| server supervisor | `ServerSupervision.dfy` |
| subprocess output | `SubprocessOutput.dfy` |
| model ids, routing, catalogs | `GatewayModelIds.dfy`, `ModelCatalog.dfy` |

`dafny verify dfyconfig.toml` checks the whole project.

## What the models take as given

- Time is a real clock that never goes back. Random jitter is any real in `[0, jitter]`, a parsed Retry-After an optional nonnegative real.
- A lock section that does not await is one step; where a lock is held across awaits (session manager, workflow), its sections exclude one another and an operation is one step. A parked task may wake at any time, which covers `notify_all` and spurious wakeups.
- A retry session has at most one opener or unresolved attempt at a time: its callers report on an attempt before they open another one, and never after they closed it. An attempt with an outcome may stay open meanwhile. Whether an error is retryable is a parameter, and errors matter by identity only.
- `commit`, `runtime.cleanup` and the model discovery end by returning, raising an Exception or cancellation. `start_model_list_refresh` is not called while `replace` holds its lock. A cancelled refresh may still be running when its canceller goes on, which allows more runs than the program has.
- Identities are never reused: claim ids of voice notes, numbers of messages and futures, lease and session objects.
- In the delivery queue the pause and the wait for quota end by being over or by cancellation.

Where the documentation and the code differ the model follows the code. The limiter documents its limit
for any interval of one window, but eviction uses `<=`, so it holds for half-open intervals: `RateLimit.ClosedIntervalsToo`
gives the exact condition for closed ones. `_cleanup` documents that a lease is released exactly once;
`ResponseLifetime.ServeRequest` says exactly when it is, `BoundTwice` and an escaping close show when it is not.
A listed model id leads back to its model if and only if the model's own name does not end in `[1m]`
(`GatewayModelIds.EncodedIdsResolve`, `ModelCatalog.ListedIdsResolve`), and a random pending session id must be unused
(`SessionIndex.CreateNeedsAnUnusedKey`, `CollisionLosesASession`). A stream that recovers in midstream opens an attempt while
it holds the slot of the broken one, so recovering streams can wait for each other, or with one slot for themselves.
`AdmissionDeadlock.WedgedExactly` gives the exact states in which no slot is ever freed again. They are not reached as long as
sessions open attempts only while they hold no slot (`HoldAndWaitIsNeeded`), nor with max_attempts 1 (`OneAttemptNeverWedges`), and
they are reachable with every other setting (`EveryBulkheadCanWedge`).

## Model

| member | source | states |
|---|---|---|
| RateLimit.EvictDropsExpired | src/free_claude_code/core/rate_limit.py:48-51 | eviction removes a prefix of expired timestamps and stops at the first live one |
| RateLimit.EvictionMatchesHistory | src/free_claude_code/core/rate_limit.py:43-51 | after eviction the deque is exactly the part of the whole history younger than one window |
| RateLimit.AdmitKeepsInv | src/free_claude_code/core/rate_limit.py:53-57 | recording an admission in a window with room keeps admission i+limit at least one window after admission i |
| RateLimit.SectionKeepsInv | src/free_claude_code/core/rate_limit.py:43-60 | every critical section keeps spacing and agreement with the history, and only an admission adds to the history |
| RateLimit.UnadmittedSection | src/free_claude_code/core/rate_limit.py:35-41 | a refused acquire_if and a full window leave the history unchanged; the wait they give is never negative |
| RateLimit.WaitRestoresCapacity | src/free_claude_code/core/rate_limit.py:59-63 | a task that slept the wait it was given finds room, unless others took it |
| RateLimit.WaitIsNeeded | src/free_claude_code/core/rate_limit.py:59-63 | and no earlier section finds room, so the wait is exact |
| RateLimit.RunKeepsInv | src/free_claude_code/core/rate_limit.py:43-65 | the spacing holds over every run of sections by any tasks on a clock that never goes back |
| RateLimit.AtMostCountPerWindow | src/free_claude_code/core/rate_limit.py:10-13 | every half-open interval of one window holds at most rate_limit admissions |
| RateLimit.ClosedIntervalsToo | src/free_claude_code/core/rate_limit.py:10-13 | the same for closed intervals holds if and only if no two admissions rate_limit apart are exactly one window apart, because eviction uses <= |
| RateLimit.ClosedIntervalWitness | src/free_claude_code/core/rate_limit.py:50 | a run with one admission more than the limit in a closed interval of one window |
| RateLimit.EdgeAdmission | src/free_claude_code/core/rate_limit.py:48-57 | an admission breaks the closed reading exactly if the timestamp rate_limit places back equals the cutoff of its section and the clock has not moved when it is recorded |
| RateLimit.ClosedIntervalsOfRuns | src/free_claude_code/core/rate_limit.py:43-65 | a whole run keeps the documented limit for closed intervals if and only if none of its admissions meets that condition |
| RateLimit.StrictSlidingWindowLimiter.TryAcquire | src/free_claude_code/core/rate_limit.py:43-60 | the object pops and appends its deque in place exactly as the section says |
| AdmissionSafety.GateKeepsInv | src/free_claude_code/providers/admission.py:308-353 | one pass of _wait_for_gate keeps: one probe at most, held by the leader with the current generation, no leader or waiters at a terminal episode |
| AdmissionSafety.ProbePermitIsCurrent | src/free_claude_code/providers/admission.py:397-411 | a session that holds an unresolved probe permit finds it current: leader, generation and probe_active still match |
| AdmissionSafety.ClaimKeepsInv | src/free_claude_code/providers/admission.py:262-273 | the section after the semaphore keeps the invariant whether the permit is still current or stale |
| AdmissionSafety.RetryableFailureKeepsInv | src/free_claude_code/providers/admission.py:506-526 | a failed attempt with budget left keeps the invariant in each of its four cases |
| AdmissionSafety.LastFailureKeepsInv | src/free_claude_code/providers/admission.py:527-547 | a failed attempt without budget keeps the invariant, opening or exhausting the episode |
| AdmissionSafety.BackoffOverKeepsInv | src/free_claude_code/providers/admission.py:365-378 | the section after the leader's sleep keeps the invariant |
| AdmissionSafety.RunAbandonmentKeepsInv | src/free_claude_code/providers/admission.py:477-491 | the shielded abandonment keeps the invariant, even when it runs after aclose gave the slot back |
| AdmissionSafety.OpenAttemptKeepsInv | src/free_claude_code/providers/admission.py:250-255 | open_attempt keeps the invariant, also when the session still has an attempt with an outcome open |
| AdmissionSafety.CloseLingeringKeepsInv | src/free_claude_code/providers/admission.py:167-178 | closing an attempt that its session has left behind keeps the invariant |
| AdmissionSafety.StepKeepsInv | src/free_claude_code/providers/admission.py:250-674 | each of the 18 kinds of step keeps the invariant |
| AdmissionTheorems.RunKeepsInv | src/free_claude_code/providers/admission.py:250-674 | the invariant holds after every run of any number of sessions |
| AdmissionTheorems.OneProbe | src/free_claude_code/providers/admission.py:308-378 | the unresolved probe permits of all tasks together are one if an episode has probe_active and none otherwise; the holder is the leader and has the current generation; a terminal episode has no leader, probe or waiter |
| AdmissionTheorems.GenerationsAreNeverReused | src/free_claude_code/providers/admission.py:602-617 | a later episode is the same one or has a generation never used before |
| AdmissionTheorems.ClaimIsAuthorised | src/free_claude_code/providers/admission.py:255-273 | although a permit was issued before two awaits, an attempt is claimed only while no episode is open, or by the leader's current probe of a non-terminal episode whose ready_at has passed, and within the budget |
| AdmissionTheorems.StepCounts | src/free_claude_code/providers/admission.py:63-67 | attempts_started counts exactly the session's claims, and budgets never change |
| AdmissionTheorems.BudgetIsNeverExceeded | src/free_claude_code/providers/admission.py:55-67 | no session ever starts more than max_attempts attempts |
| AdmissionTheorems.RetriesDoNotMultiply | src/free_claude_code/providers/admission.py:493-526 | during one leader's tenure of an episode all sessions together claim exactly what the leader claims, at most its remaining budget |
| AdmissionTheorems.FailedSessionsNeverClaim | src/free_claude_code/providers/admission.py:69-73 | a session told that the recovery failed never claims another attempt |
| AdmissionTheorems.ExhaustionEndsTheWaiters | src/free_claude_code/providers/admission.py:539-547 | when the leader's budget is exhausted every recorded waiter is failed with that error and claims nothing in any continuation |
| AdmissionTheorems.NoClaimBeforeRelease | src/free_claude_code/providers/admission.py:319-353 | while an open episode is neither probed nor ready, no session at all claims an attempt |
| AdmissionTheorems.BackoffBindsEverySession | src/free_claude_code/providers/admission.py:509-521 | after a shared failure no session calls upstream before the delay is over |
| AdmissionTheorems.CooldownBindsEverySession | src/free_claude_code/providers/admission.py:320-322 | after exhaustion no session calls upstream before terminal_until |
| AdmissionTheorems.ProbesAreNeverEarly | src/free_claude_code/providers/admission.py:336-375 | neither way to a probe permit is earlier than ready_at, although the section after the sleep does not read it |
| AdmissionResources.SlotsAreConserved | src/free_claude_code/providers/admission.py:250-278 | free slots plus the slots of all openers and all open attempts, any number per session, equal max_concurrency on every path |
| AdmissionResources.BulkheadHolds | src/free_claude_code/providers/admission.py:265 | from the start, the open attempts of all sessions together never outnumber max_concurrency, and a session that recovers in midstream counts with each of its own |
| AdmissionResources.RunKeepsQuota | src/free_claude_code/providers/admission.py:259-264 | every claim and every pending opener owns a timestamp of its own in the window's history |
| AdmissionResources.ClaimsFitTheWindow | src/free_claude_code/providers/admission.py:259-272 | claims stamped within one half-open window are at most rate_limit |
| AdmissionResources.AttemptsRespectTheWindow | src/free_claude_code/providers/admission.py:184 | over every run from the start each claimed attempt has a timestamp of its own in the window's history, and those in one half-open window are at most rate_limit |
| AdmissionDeadlock.WedgedExactly | src/free_claude_code/providers/admission.py:250-278 | a reachable state is wedged - no slot is free, and every session that holds one waits in open_attempt without a rejection to come - if and only if no continuation ever has a free slot or claims an attempt, unless it cancels a session that holds a slot while it waits |
| AdmissionDeadlock.WedgedForever | src/free_claude_code/providers/openai_chat/provider.py:845-847 | over every run without such a cancellation a wedge stays one, wherever its holders wait: parked, backing off, for quota or for a slot |
| AdmissionDeadlock.HolderFrees | src/free_claude_code/providers/admission.py:93-178 | a holder of a slot that does not wait, or that will be rejected, gives a slot back in at most three steps of its own |
| AdmissionDeadlock.HoldAndWaitIsNeeded | src/free_claude_code/providers/openai_chat/provider.py:225-260 | no state of a run is wedged if every session calls open_attempt only while it holds no slot |
| AdmissionDeadlock.OneAttemptNeverWedges | src/free_claude_code/providers/admission.py:55-57 | a provider with max_attempts 1 never wedges |
| AdmissionDeadlock.EveryBulkheadCanWedge | src/free_claude_code/providers/openai_chat/provider.py:640-648 | with any larger max_attempts, and any max_concurrency and rate limit, as many sessions as there are slots wedge the provider by recovering in midstream |
| AdmissionDeadlock.OneStreamCanStick | src/free_claude_code/providers/openai_chat/provider.py:640-648 | with max_concurrency 1 a run of one session whose stream breaks in midstream wedges the provider |
| AdmissionDeadlock.CancellationUnsticks | src/free_claude_code/providers/openai_chat/provider.py:722 | every holder in a wedge can be cancelled where it waits, and then frees a slot by closing an attempt it left behind |
| AdmissionRecovery.AnswerEndsEpisode | src/free_claude_code/providers/admission.py:413-475 | a success or final rejection reported on a probe that has no outcome leaves no episode open, whoever waits in it; on any other attempt it leaves the episode as it is |
| AdmissionRecovery.OnlyFailuresOpen | src/free_claude_code/providers/admission.py:509-535 | only a failed attempt without an outcome opens an episode when none is open, with a generation never used before |
| AdmissionRecovery.AnswerRestoresService | src/free_claude_code/providers/admission.py:413-475 | after the answered probe, in any continuation and until another attempt fails, every session at the gate that was not told to give up is let through without a probe |
| AdmissionRecovery.FirstFailureOpens | src/free_claude_code/providers/admission.py:493-547 | the first failure of a healthy provider opens an episode that its session leads and may probe after the delay, or a cooldown if its budget is spent; no other session changes |
| AdmissionRecovery.FailedProbeIsRepeated | src/free_claude_code/providers/admission.py:515-519 | a failed probe with budget left keeps the lead, and may be repeated after the delay |
| AdmissionRecovery.LateFailureJoins | src/free_claude_code/providers/admission.py:520-524 | a failure that meets an episode it does not probe waits in it, or is told its error in a cooldown, and without budget concerns its session only |
| AdmissionRecovery.LastProbeExhausts | src/free_claude_code/providers/admission.py:527-547 | the failed last probe tells exactly the waiters its error, and a cooldown with neither leader nor waiters begins |
| AdmissionRecovery.RejectedAtGate | src/free_claude_code/providers/admission.py:315-322 | a session that was told to give up, or meets a cooldown, is rejected and touches nothing |
| AdmissionRecovery.LeaderAtGate | src/free_claude_code/providers/admission.py:319-378 | whoever may lead does: it gets the probe when it is ready, sleeps until exactly then otherwise, and after a cooldown starts a new episode |
| AdmissionRecovery.FollowerAtGate | src/free_claude_code/providers/admission.py:336-352 | a session behind another leader is recorded as a waiter and parks in that episode |
| AdmissionRecovery.GateAnswers | src/free_claude_code/providers/admission.py:308-378 | what the gate answers is where the session goes, and a rejection names the error the recovery failed with |
| AdmissionRecovery.NobodyIsForgotten | src/free_claude_code/providers/admission.py:336-352 | over every run a session parked behind another leader is one of its episode's waiters for as long as that goes on, so it has been told when the recovery has failed |
| AdmissionRecovery.CorrectionKeepsTheLead | src/free_claude_code/providers/admission.py:437-450 | a corrected probe keeps the lead, and its session is granted the probe again at once |
| AdmissionRecovery.AbandonedProbeIsReplaced | src/free_claude_code/providers/admission.py:477-491 | when a probe is given up, in whichever of the ways it can be, the next session at the gate that was not told to give up gets it |
| AdmissionRecovery.CancelledLeaderIsReplaced | src/free_claude_code/providers/admission.py:376-378 | a leader cancelled in its sleep leaves the lead to whoever comes next |
| AdmissionRecovery.SleepEndsInProbe | src/free_claude_code/providers/admission.py:365-375 | the leader that slept until its episode was ready always gets the probe: nobody can have taken its lead |
| AdmissionRecovery.AdmittedAtQuota | src/free_claude_code/providers/admission.py:259-264 | a current permit with room in the window goes on with a timestamp of its own, a stale one returns to the gate and spends none |
| AdmissionRecovery.ClaimOrReturn | src/free_claude_code/providers/admission.py:267-273 | with the slot, a current permit claims the attempt, and a stale one gives the slot back and returns to the gate |
| AdmissionRecovery.UnresolvedCloses | src/free_claude_code/providers/admission.py:167-178 | closing an attempt without an outcome leaves its probe to the abandonment and gives back one slot, once |
| ProviderAdmission.RetryDelayBounds | src/free_claude_code/providers/admission.py:680-685 | the delay is at least Retry-After and base_delay, at most the cap plus jitter or Retry-After, and never shrinks with more attempts |
| ProviderAdmission.DelaysDouble | src/free_claude_code/providers/admission.py:680-685 | without jitter and Retry-After the delay doubles with every attempt until it reaches the cap |
| ProviderAdmission.JitterAndHeader | src/free_claude_code/providers/admission.py:680-685 | the jitter is added to the capped backoff, and a longer Retry-After replaces the sum |
| ProviderAdmission.RunWithRetry | src/free_claude_code/providers/admission.py:280-306 | fn is called at most max_attempts times, counted by the session, only retryable failures are repeated, and the last outcome is passed on |
| ProviderAdmission.ProviderAdmissionController.Reachable | src/free_claude_code/providers/admission.py:181-227 | the object is always in a state a run of the protocol leads to, so every theorem applies to it |
| ProviderAdmission.ProviderAdmissionController.NewRetrySession | src/free_claude_code/providers/admission.py:239-248 | a fresh budget |
| ProviderAdmission.ProviderAdmissionController.OpenAttempt | src/free_claude_code/providers/admission.py:250-255 | an exhausted session is refused; an attempt with an outcome may still be open and is left behind |
| ProviderAdmission.ProviderAdmissionController.Gate | src/free_claude_code/providers/admission.py:308-354 | the section of _wait_for_gate is the step of the protocol |
| ProviderAdmission.ProviderAdmissionController.BackoffOver | src/free_claude_code/providers/admission.py:365-375 | the section after the leader's sleep is the step of the protocol |
| ProviderAdmission.ProviderAdmissionController.CancelParked | src/free_claude_code/providers/admission.py:343-352 | a cancelled waiter leaves the episode it was recorded in |
| ProviderAdmission.ProviderAdmissionController.CancelBackoff | src/free_claude_code/providers/admission.py:376-378 | a leader cancelled in its sleep gives up the lead |
| ProviderAdmission.ProviderAdmissionController.AwaitQuota | src/free_claude_code/providers/admission.py:259-264 | acquire_if and the permit check are one section; a stale permit is abandoned and costs no quota |
| ProviderAdmission.ProviderAdmissionController.GrantSlot | src/free_claude_code/providers/admission.py:265-266 | a slot leaves the semaphore |
| ProviderAdmission.ProviderAdmissionController.ClaimAttempt | src/free_claude_code/providers/admission.py:267-273 | the permit is checked again; a stale one gives the slot back |
| ProviderAdmission.ProviderAdmissionController.CancelOpening | src/free_claude_code/providers/admission.py:274-278 | an opener that fails gives back its slot and its probe |
| ProviderAdmission.ProviderAdmissionController.AttemptAnswered | src/free_claude_code/providers/admission.py:413-475 | an unresolved attempt with the current probe - its leader, generation and probe_active match - leaves no episode behind; on any other the episode stays what it was |
| ProviderAdmission.ProviderAdmissionController.AttemptCorrected | src/free_claude_code/providers/admission.py:437-450 | a corrected request keeps the lead and may probe at once |
| ProviderAdmission.ProviderAdmissionController.AttemptFailed | src/free_claude_code/providers/admission.py:493-547 | a failed attempt opens, delays, joins or exhausts an episode |
| ProviderAdmission.ProviderAdmissionController.RunAbandonment | src/free_claude_code/providers/admission.py:477-491 | an abandoned probe frees the lead |
| ProviderAdmission.ProviderAttempt.Succeeded | src/free_claude_code/providers/admission.py:120-126 | only the first report is recorded: later ones change nothing |
| ProviderAdmission.ProviderAttempt.Retry | src/free_claude_code/providers/admission.py:135-165 | the answer is whether this execution may retry; a resolved attempt changes nothing |
| ProviderAdmission.ProviderAttempt.Close | src/free_claude_code/providers/admission.py:167-175 | only the first aclose has an effect, on the attempt its session works with or on one it left behind |
| ProviderAdmission.ProviderAttempt.FinishClose | src/free_claude_code/providers/admission.py:177-178 | the slot is given back once |
| GenerationModel.ProviderGeneration.Retain | src/free_claude_code/runtime/provider_manager.py:133-134 | a use counts up and clears drained |
| GenerationModel.ProviderGeneration.Release | src/free_claude_code/runtime/provider_manager.py:318-326 | a use counts down once, the last one sets drained, and starts the cleanup of a retired generation unless close will |
| GenerationModel.ProviderGeneration.StartCleanup | src/free_claude_code/runtime/provider_manager.py:427-437 | one cleanup task at a time, never for a closed or used generation |
| GenerationModel.ProviderGeneration.EndCleanup | src/free_claude_code/runtime/provider_manager.py:446-474 | only a cleanup that returned closes the generation |
| GenerationSafety.ReleaseKeepsCounts | src/free_claude_code/runtime/provider_manager.py:318-326 | active_leases stays the number of unreleased leases and running refreshes |
| GenerationSafety.LeaveKeepsInv | src/free_claude_code/runtime/provider_manager.py:318-349 | a lease, refresh or cancelled refresh that leaves keeps all invariants in every phase of replace and close |
| GenerationSafety.BuildKeepsInv | src/free_claude_code/runtime/provider_manager.py:242-286 | building, committing and publishing a candidate keeps all invariants, and so do its failures |
| GenerationSafety.CollectedKeepsInv | src/free_claude_code/runtime/provider_manager.py:306-312 | if every generation of close's snapshot closed, none is listed as retired any more |
| GenerationSafety.StepKeepsInv | src/free_claude_code/runtime/provider_manager.py:129-474 | each of the 26 kinds of step keeps the invariants |
| GenerationTheorems.RunKeepsInv | src/free_claude_code/runtime/provider_manager.py:129-474 | the invariants hold after every run |
| GenerationTheorems.InvIsWellFormed | src/free_claude_code/runtime/provider_manager.py:129-474 | the well-formedness the steps ask for holds in every reachable state |
| GenerationTheorems.CleanupIsExclusive | src/free_claude_code/runtime/provider_manager.py:421-474 | active_leases is exactly the unreleased leases and running refreshes, drained is set exactly at 0, and a generation being cleaned, or cleaned, is retired and unused |
| GenerationTheorems.RetirementIsFinal | src/free_claude_code/runtime/provider_manager.py:276-277 | over every run a retired generation stays retired and never gains a use, and a successful cleanup is final |
| GenerationTheorems.LastUserStartsCleanup | src/free_claude_code/runtime/provider_manager.py:318-326 | unless close does it, the step in which the last user leaves a retired generation starts its cleanup |
| GenerationTheorems.RuntimesAreConserved | src/free_claude_code/runtime/provider_manager.py:399-412 | each runtime ever made is served by one generation, or unpublished, or was cleaned up; never two of these, and never cleaned twice |
| GenerationTheorems.RuntimesAreNotShared | src/free_claude_code/runtime/provider_manager.py:264-269 | no two generations share a runtime |
| GenerationTheorems.CurrentCountsCommits | src/free_claude_code/runtime/provider_manager.py:261-269 | over every run the id of the current generation counts the commits, so the last committed configuration is the one that serves |
| GenerationTheorems.CloseLeavesNothing | src/free_claude_code/runtime/provider_manager.py:288-316 | after a successful close, however many failed before, every runtime was cleaned up once and nothing is in use |
| GenerationShutdown.CollectedIsTakenCareOf | src/free_claude_code/runtime/provider_manager.py:306-311 | each generation of the snapshot that close has collected is closed, is being cleaned up, or had a cleanup fail since the snapshot drained |
| GenerationShutdown.CloseSucceedsExactly | src/free_claude_code/runtime/provider_manager.py:302-316 | from the drained snapshot on, over every run that ends the close: the manager is closed if and only if no cleanup of a collected generation and none of an unpublished runtime failed |
| GenerationShutdown.IdleClose | src/free_claude_code/runtime/provider_manager.py:288-316 | the close of an idle manager step by step: the runtime is cleaned up once, and the outcome of that decides |
| GenerationProgress.AcquireOutcome | src/free_claude_code/runtime/provider_manager.py:129-135 | a lease retains the current generation and no other, unless the manager is shutting down |
| GenerationProgress.ReleaseOutcome | src/free_claude_code/runtime/provider_manager.py:80-84 | the first release gives one use back and touches no other lease or generation; any other changes nothing |
| GenerationProgress.RefreshOutcome | src/free_claude_code/runtime/provider_manager.py:178-187 | one background refresh at a time, for the current generation, which it uses while it runs |
| GenerationProgress.LockedOutcome | src/free_claude_code/runtime/provider_manager.py:191-249 | replace and the explicit refreshes are refused while shutting down, and otherwise take the lock and have cancelled the background refresh |
| GenerationProgress.CandidateOutcome | src/free_claude_code/runtime/provider_manager.py:242-286 | a factory that raises leaves nothing, a commit that raises leaves an unpublished runtime, and a commit schedules a refresh and starts the cleanup of an unused predecessor |
| GenerationProgress.CleanupOutcome | src/free_claude_code/runtime/provider_manager.py:446-474 | a generation is closed and no longer listed as retired exactly if its cleanup succeeded |
| GenerationProgress.SweepOutcome | src/free_claude_code/runtime/provider_manager.py:399-412 | an unpublished runtime is forgotten, and counted as cleaned up, exactly if its cleanup succeeded |
| GenerationProgress.LockIsGivenBack | src/free_claude_code/runtime/provider_manager.py:242-286 | whoever holds the replace lock can give it back in at most two steps |
| GenerationProgress.CanAlwaysClose | src/free_claude_code/runtime/provider_manager.py:288-316 | from every reachable state, whatever failed or was cancelled before, some continuation closes the manager |
| ProviderManager.ProviderRuntimeManager.Reachable | src/free_claude_code/runtime/provider_manager.py:101-123 | the object is always in a state a recorded run of the protocol leads to, so every theorem applies to it |
| ProviderManager.ProviderRuntimeManager.Acquire | src/free_claude_code/runtime/provider_manager.py:129-135 | the step: a lease retains the current generation unless the manager is shutting down |
| ProviderManager.ProviderRuntimeManager.ReleaseLease | src/free_claude_code/runtime/provider_manager.py:80-84 | the step: however often a lease is released, it counts down once |
| ProviderManager.ProviderRuntimeManager.StartModelListRefresh | src/free_claude_code/runtime/provider_manager.py:178-187 | the step: at most one background refresh |
| ProviderManager.ProviderRuntimeManager.RunRefresh | src/free_claude_code/runtime/provider_manager.py:334-337 | the step: a refresh retains its generation unless that is closed |
| ProviderManager.ProviderRuntimeManager.BeginExplicitRefresh | src/free_claude_code/runtime/provider_manager.py:191-195 | the step: cancels the background refresh and retains the current generation under the replace lock |
| ProviderManager.ProviderRuntimeManager.CloseGeneration | src/free_claude_code/runtime/provider_manager.py:427-438 | after _close_generation the generation is being cleaned up unless it is closed or in use; there is one cleanup at most |
| ProviderManager.ProviderRuntimeManager.EndCleanup | src/free_claude_code/runtime/provider_manager.py:446-474 | the step: a successful cleanup closes the generation and takes it off the retired ones |
| ProviderManager.ProviderRuntimeManager.BeginReplace | src/free_claude_code/runtime/provider_manager.py:237-240 | the step: refused when shutting down; otherwise the background refresh is cancelled |
| ProviderManager.ProviderRuntimeManager.EndSweep | src/free_claude_code/runtime/provider_manager.py:399-412 | the step: only a successful cleanup forgets an unpublished runtime |
| ProviderManager.ProviderRuntimeManager.CommitFailed | src/free_claude_code/runtime/provider_manager.py:257-259 | the step: the candidate's runtime is recorded as unpublished before its cleanup |
| ProviderManager.ProviderRuntimeManager.Publish | src/free_claude_code/runtime/provider_manager.py:261-285 | publication, retirement of the previous generation, its cleanup if nobody uses it and the new refresh are one step |
| ProviderManager.ProviderRuntimeManager.BeginClose | src/free_claude_code/runtime/provider_manager.py:288-295 | the step: refuses new leases and cancels the refresh, unless an earlier close succeeded |
| ProviderManager.ProviderRuntimeManager.RetireCurrent | src/free_claude_code/runtime/provider_manager.py:296-301 | the step: close retires the current generation once and takes its snapshot |
| ProviderManager.ProviderRuntimeManager.CollectOne | src/free_claude_code/runtime/provider_manager.py:306-311 | the step: close starts the cleanup of one generation of its snapshot |
| ProviderManager.ProviderRuntimeManager.FinishClose | src/free_claude_code/runtime/provider_manager.py:313-316 | the step: closed exactly if every generation and every unpublished runtime was cleaned up |
| ResponseLifetime.CreateResponse | src/free_claude_code/api/routes.py:38-98 | when the route ends the lease was released, or is bound to the response it returns, unless the handler returned one already bound or closing |
| ResponseLifetime.BindResponseLifetime | src/free_claude_code/api/response_streams.py:152-173 | a managed response is bound, any other kind releases at once |
| ResponseLifetime.ManagedStreamingResponse.BindRelease | src/free_claude_code/api/response_streams.py:62-68 | a second release, or one after cleanup started, is refused and changes nothing |
| ResponseLifetime.ManagedStreamingResponse.Close | src/free_claude_code/api/response_streams.py:70-82 | all callers share one cleanup task |
| ResponseLifetime.ManagedStreamingResponse.RunCleanup | src/free_claude_code/api/response_streams.py:99-116 | first the body is closed, and then the lease is released, unless something other than an Exception escaped |
| ResponseLifetime.CleanupReleasesUnlessEscaped | src/free_claude_code/api/response_streams.py:70-116 | however often and whenever a response is closed there is one cleanup, and after it the lease is released if and only if the body's close let nothing escape |
| ResponseLifetime.ServeRequest | src/free_claude_code/api/routes.py:44-67 | a request releases its lease exactly if the handler raised, returned no managed response, or returned one whose cleanup has run without an escape; and it counts down once |
| ResponseLifetime.BoundTwice | src/free_claude_code/api/response_streams.py:62-68 | a response returned by two requests leaves the second lease unreleased |
| ResponseLifetime.EscapingBody | src/free_claude_code/api/response_streams.py:99-113 | a cancellation that escapes from closing the body leaves the lease unreleased |
| ResponseLifetime.PrefetchedStream.Next | src/free_claude_code/api/response_streams.py:292-307 | the prefetched chunk comes first, a failure becomes the terminal frame, and after the end or a close nothing is asked of the body |
| ResponseLifetime.PrefetchedStream.ReadAll | src/free_claude_code/api/response_streams.py:271-325 | the client gets the prefetched chunk, each chunk of the body in order, and at most one terminal frame |
| ResponseLifetime.RestIs | src/free_claude_code/api/response_streams.py:271-325 | the client gets every chunk in order, and a failure as the terminal frame if the wire format has one, as an exception otherwise |
| VoiceTheorems.RemoveIsExact | src/free_claude_code/messaging/voice.py:368-376 | _remove deletes exactly the keys that find the entry |
| VoiceTheorems.BindStatusKeepsIndex | src/free_claude_code/messaging/voice.py:106-123 | binding a status message keeps the two-key index consistent |
| VoiceTheorems.StepKeepsIndex | src/free_claude_code/messaging/voice.py:89-269 | every operation keeps: a key finds an entry it belongs to, and a live entry is found under its voice key and its bound status key |
| VoiceTheorems.KeysStayWithTheirEntry | src/free_claude_code/messaging/voice.py:89-123 | over any run a key goes on finding the entry it finds for as long as that entry lives |
| VoiceTheorems.ObtainingEndsOwnership | src/free_claude_code/messaging/voice.py:181-269 | a completion, discard or cancel that succeeds removes a live claim with all its keys, and nothing else does |
| VoiceTheorems.ObtainedAtMostOnce | src/free_claude_code/messaging/voice.py:264-269 | over any run at most one of completion, discard and cancel obtains a claim, and from then on it is dead |
| VoiceTheorems.GoneForever | src/free_claude_code/messaging/voice.py:338-342 | a claim that is no longer live never becomes live again and is never obtained |
| VoiceTheorems.DeadClaimsAreRejected | src/free_claude_code/messaging/voice.py:338-342 | a dead claim is rejected by every operation |
| VoiceTheorems.WaitersAreProtected | src/free_claude_code/messaging/voice.py:354-366 | a claim whose callback waits for another is protected: the counts are exact |
| VoiceTheorems.WaitingForSinks | src/free_claude_code/messaging/voice.py:344-352 | waits that lead only to claims which do not wait close no cycle |
| VoiceTheorems.StepKeepsWaits | src/free_claude_code/messaging/voice.py:193-251 | every step keeps the counts exact and the wait-for graph acyclic |
| VoiceTheorems.RunKeepsInv | src/free_claude_code/messaging/voice.py:81-376 | index, counts and acyclicity hold after every run |
| VoiceTheorems.NoCallbackDeadlock | src/free_claude_code/messaging/voice.py:193-251 | in every reachable state no handoff callback waits for itself through any chain of cancels |
| VoiceTheorems.RepliesAreDeleted | src/free_claude_code/messaging/voice.py:321-336 | a cancel asked for in a reply deletes the message replied to, and the voice message only if that was it |
| VoiceTheorems.ReservationOutcome | src/free_claude_code/messaging/voice.py:89-104 | a claim is taken exactly if its voice key is free, and is then found under that key alone |
| VoiceTheorems.BindingOutcome | src/free_claude_code/messaging/voice.py:106-123 | a status is bound exactly to a live claim that has none, or the same, under a key nobody else has |
| VoiceTheorems.HandoffOutcome | src/free_claude_code/messaging/voice.py:131-143 | a handoff begins exactly for a live claim with a status and none running |
| VoiceTheorems.EndOutcome | src/free_claude_code/messaging/voice.py:181-187 | completion and discard succeed exactly for live claims, and every key that finds another claim stays |
| VoiceTheorems.KeysAreOfTheChat | src/free_claude_code/messaging/voice.py:89-123 | in every reachable state a key finds a claim of the key's own chat |
| VoiceTheorems.ScopeIsCancelled | src/free_claude_code/messaging/voice.py:224-240 | in every reachable state cancel_scope obtains exactly the live claims of that chat, and cancel_all those of every chat, that are neither the caller's own nor protected; every key that finds another claim finds it still, and no other key finds one |
| VoiceTheorems.ReplyIsCancelled | src/free_claude_code/messaging/voice.py:196-205 | cancel obtains exactly the claim its reply finds, unless that is the caller's own or protected |
| PendingVoices.PendingVoiceRegistry.Reachable | src/free_claude_code/messaging/voice.py:81-87 | the object is always in a state a recorded run of the protocol leads to, so every theorem applies to it |
| PendingVoices.PendingVoiceRegistry.Reserve | src/free_claude_code/messaging/voice.py:89-104 | takes the step: a key that is taken is refused |
| PendingVoices.PendingVoiceRegistry.BindStatus | src/free_claude_code/messaging/voice.py:106-123 | takes the step, mutating the shared entry under both keys |
| PendingVoices.PendingVoiceRegistry.Handoff | src/free_claude_code/messaging/voice.py:131-143 | takes the step: rejected without a bound status or with a handoff already running |
| PendingVoices.PendingVoiceRegistry.CompleteIfOwned | src/free_claude_code/messaging/voice.py:264-269 | takes the step: completes only the entry the registry still has |
| PendingVoices.PendingVoiceRegistry.Discard | src/free_claude_code/messaging/voice.py:181-187 | takes the step |
| PendingVoices.PendingVoiceRegistry.CancelOne | src/free_claude_code/messaging/voice.py:196-205 | takes the step: the section of cancel, with its exclusion rule |
| PendingVoices.PendingVoiceRegistry.CancelScope | src/free_claude_code/messaging/voice.py:230-240 | collecting entries once and removing them one by one obtains exactly the live claims of that chat that are neither the caller's own nor protected, and leaves every key of the others as it is |
| PendingVoices.PendingVoiceRegistry.BeginCancel | src/free_claude_code/messaging/voice.py:354-357 | protection counts up |
| PendingVoices.PendingVoiceRegistry.EndCancel | src/free_claude_code/messaging/voice.py:359-366 | protection counts down and disappears at 0; the claim always has a count |
| DeliveryQueue.EnqueueRefines | src/free_claude_code/messaging/limiter.py:244-263 | compaction refines appending to a plain FIFO: the deque has its keys in first-enqueue order, each job is what its key waits for |
| DeliveryQueue.TakeRefines | src/free_claude_code/messaging/limiter.py:74-76 | taking a job refines taking the head of the plain FIFO with all that replaced it |
| DeliveryQueue.TakesOldestFirst | src/free_claude_code/messaging/limiter.py:74-76 | the next job is that of the oldest waiting enqueue, runs the last operation enqueued for its key, and has the futures of all of them |
| DeliveryQueue.DequeMatchesMap | src/free_claude_code/messaging/limiter.py:249-262 | the deque is duplicate-free and has exactly the keys of the map |
| DeliveryQueue.DrainEqualsFifo | src/free_claude_code/messaging/limiter.py:20-22 | when the queue is drained, what was run leaves for every key what running all enqueued operations in order would leave |
| DeliveryQueue.EndKeepsFutures | src/free_claude_code/messaging/limiter.py:89-111 | when the worker is done with a job every future of it is resolved, with the outcome of an operation that covers it |
| DeliveryQueue.FuturesAreAccountedFor | src/free_claude_code/messaging/limiter.py:61-111 | an accepted future that was not cancelled is in exactly one of queued, active and done, and its outcome is that of the same or a later operation for its key; a cancelled one is never both queued and active |
| DeliveryQueue.StepLingers | src/free_claude_code/messaging/limiter.py:61-189 | a step makes a cancelled future linger in queue or worker exactly if its caller cancels it while it waits or a shutdown does while the worker has it, and ends that exactly when the worker is done with its job or the queue is cleared |
| DeliveryQueue.LingersExactly | src/free_claude_code/messaging/limiter.py:61-189 | over every run a cancelled future is still queued or active if and only if some step left it so and none since took it off |
| DeliveryQueue.OnlyCallersAndShutdownLinger | src/free_claude_code/messaging/limiter.py:179-189 | in particular its caller cancelled it or a shutdown cleared the queue |
| DeliveryQueue.CancelledFutureStaysListed | src/free_claude_code/messaging/limiter.py:244-263 | a future its caller cancelled while it was queued stays in the queue |
| DeliveryQueue.SkippedJobIsLost | src/free_claude_code/messaging/limiter.py:157-169 | a worker that went on without resolving the job it took would lose every future of it that still waits |
| DeliveryQueue.ClearResolvesAll | src/free_claude_code/messaging/limiter.py:175-189 | the section of shutdown resolves every accepted future |
| DeliveryQueue.NothingWaitsAfterShutdown | src/free_claude_code/messaging/limiter.py:171-189 | after it nothing is accepted and all futures stay done, in any continuation |
| DeliveryQueue.OutcomesAreReported | src/free_claude_code/messaging/limiter.py:89-111 | over every run a done future Done(op, r) says what happened: operation op ended in this run, and r is whether it returned, in both directions |
| DeliveryQueue.EndsOneWay | src/free_claude_code/messaging/limiter.py:89-111 | an operation ends once, so it did not also end the other way |
| DeliveryQueue.OneSend | src/free_claude_code/messaging/limiter.py:61-93 | one enqueue, taken, begun and ended: its caller gets what the operation did |
| DeliveryQueue.EnqueueIsAccepted | src/free_claude_code/messaging/limiter.py:237-263 | an enqueue is accepted exactly while the limiter runs and is not closed, and a front one with a new key goes first |
| DeliveryQueue.ClosedForGood | src/free_claude_code/messaging/limiter.py:171-174 | from the close on nothing is accepted and nothing is taken, in any continuation |
| DeliveryQueue.RunsFromStartToStop | src/free_claude_code/messaging/limiter.py:171-189 | the worker runs from start to stop, and a closed limiter is not started again |
| DeliveryQueue.RunKeepsInv | src/free_claude_code/messaging/limiter.py:61-263 | refinement, accounting and last-write-wins hold after every run |
| MessagingLimiter.MessagingRateLimiter.Enqueue | src/free_claude_code/messaging/limiter.py:237-263 | refines the step, and refuses when closed or not started |
| MessagingLimiter.MessagingRateLimiter.TakeNext | src/free_claude_code/messaging/limiter.py:67-76 | refines the worker's section |
| MessagingLimiter.MessagingRateLimiter.EndOperation | src/free_claude_code/messaging/limiter.py:90-93 | the loop over the futures resolves those that wait with the operation's number and with whether it returned, and leaves the others |
| MessagingLimiter.MessagingRateLimiter.CancelOperation | src/free_claude_code/messaging/limiter.py:149-153 | the loop over the futures cancels those that are not done |
| MessagingLimiter.MessagingRateLimiter.ClearQueue | src/free_claude_code/messaging/limiter.py:175-189 | the loops over queued and active futures leave none waiting |
| MessagingLimiter.MessagingRateLimiter.Close | src/free_claude_code/messaging/limiter.py:171-174 | from here on nothing is accepted |
| MessagingLimiter.MessagingRateLimiter.Stop | src/free_claude_code/messaging/limiter.py:171-189 | the worker is gone |
| StreamRecovery.NothingIsLost | src/free_claude_code/providers/stream_recovery.py:63-94 | what the surviving attempt produced is what the client received, then what is held back: nothing lost, repeated or reordered |
| StreamRecovery.EarlyRetriesAreInvisible | src/free_claude_code/providers/stream_recovery.py:125-160 | over any number of abandoned attempts the client has a prefix of the surviving attempt's events, nothing before the commit, all of them after a flush; an uncommitted buffer holds fewer than max_bytes |
| StreamRecovery.CommitIsFinal | src/free_claude_code/providers/stream_recovery.py:145-152 | after the commit no failure restarts the stream |
| StreamRecovery.FailuresAreDecided | src/free_claude_code/providers/stream_recovery.py:125-179 | an early retry exactly of a retryable failure of an opened, uncommitted stream without a salvageable tool and with an attempt left, or two once there is output; midstream recovery exactly of other retryable failures after output with an attempt left or a tool to salvage; everything else is final |
| StreamRecovery.CommittedOutputIsRecovered | src/free_claude_code/providers/stream_recovery.py:138-179 | over every run: after a commit with output a retryable failure is recovered in midstream as long as attempts remain |
| StreamRecovery.HeldBackBriefly | src/free_claude_code/providers/stream_recovery.py:63-75 | a push leaves the stream uncommitted exactly while fewer than 65536 bytes are held back and less than 0.75 seconds passed since the first; then nothing goes out, and otherwise all of it in order |
| StreamRecovery.WidthIsLeast | src/free_claude_code/providers/stream_recovery.py:63-75 | the byte count takes for each code point the least number of UTF-8 bytes it fits in |
| StreamRecovery.RecoveryHoldbackBuffer.Push | src/free_claude_code/providers/stream_recovery.py:63-75 | the byte count is exact, and the buffer is released when it is full or its first event waited long enough |
| StreamRecovery.RecoveryHoldbackBuffer.Flush | src/free_claude_code/providers/stream_recovery.py:77-85 | releases what is held once |
| StreamRecovery.RecoveryController.AdvanceFailure | src/free_claude_code/providers/stream_recovery.py:125-179 | over the fields: which failures are retried early, recovered in midstream or final, in both directions; an early retry gets a new buffer with nothing released, and every other decision leaves the buffer alone |
| StreamRecovery.RecoveryController.FlushUncommitted | src/free_claude_code/providers/stream_recovery.py:120-123 | flushes exactly if the decision saw an uncommitted, non-empty buffer |
| SessionIndex.LookupIsUnambiguous | src/free_claude_code/cli/managed/manager.py:55-60 | an id belongs to at most one session, as its pending, real or former temporary id, and the lookup finds that one |
| SessionIndex.LookupOutcome | src/free_claude_code/cli/managed/manager.py:82-118 | a caller gets the live session its id names unless that is closing, and a new one exactly if the id names none; a closing session is never handed out |
| SessionIndex.RegistrationOutcome | src/free_claude_code/cli/managed/manager.py:120-145 | accepted exactly for a pending session that is not closing and a real id that nobody else has; both ids then lead to it |
| SessionIndex.CreateNeedsAnUnusedKey | src/free_claude_code/cli/managed/manager.py:106-118 | a new session leaves the index consistent if and only if its key is unused |
| SessionIndex.CollisionLosesASession | src/free_claude_code/cli/managed/manager.py:106-118 | every live session can still be found under some id, if and only if the key was unused |
| SessionIndex.CallersIdIsUnused | src/free_claude_code/cli/managed/manager.py:92-106 | a caller's id for which a session is created is unused, so only a generated id can collide |
| SessionIndex.RegisteredIdIsFree | src/free_claude_code/cli/managed/manager.py:125-137 | the real id of an accepted registration belongs to nobody else |
| SessionIndex.RegisterKeepsMaps | src/free_claude_code/cli/managed/manager.py:139-142 | registration keeps the two id maps mutually inverse with the registered keys as range, and the key sets disjoint |
| SessionIndex.RegisterKeepsOwners | src/free_claude_code/cli/managed/manager.py:139-142 | registration keeps every live session under exactly one key |
| SessionIndex.ForgetKeepsInv | src/free_claude_code/cli/managed/manager.py:62-80 | forgetting sessions keeps all of it |
| SessionIndex.ForgetByIds | src/free_claude_code/cli/managed/manager.py:62-80 | removing a session by its ids removes exactly its traces |
| SessionIndex.ManagedClaudeSessionManager.GetOrCreate | src/free_claude_code/cli/managed/manager.py:82-118 | a closing session is never handed out, and the index stays consistent exactly if the key is unused |
| SessionIndex.ManagedClaudeSessionManager.SameGeneratedId | src/free_claude_code/cli/managed/manager.py:106-118 | two sessions created with the same generated id: the first is live and no id leads to it |
| SessionIndex.ManagedClaudeSessionManager.RegisterRealSessionId | src/free_claude_code/cli/managed/manager.py:120-145 | registers unless the session is closing or the real id belongs to another |
| SessionIndex.ManagedClaudeSessionManager.ForgetSession | src/free_claude_code/cli/managed/manager.py:62-80 | its loops forget exactly the session |
| SessionIndex.ManagedClaudeSessionManager.RemoveSession | src/free_claude_code/cli/managed/manager.py:147-158 | a session whose stop fails stays owned, under the same ids, and closing |
| SessionIndex.ManagedClaudeSessionManager.StopAll | src/free_claude_code/cli/managed/manager.py:160-199 | sessions that stopped are forgotten, the others stay owned and closing, also when the stop is cancelled; success empties the index |
| AdmissionFences.AdmissibleIffUnfenced | src/free_claude_code/messaging/workflow.py:400-406 | a received turn can be admitted if and only if no stop and no clear of its chat happened since |
| AdmissionFences.FencedForever | src/free_claude_code/messaging/workflow.py:400-406 | a turn that is neither live nor admissible never gets live |
| AdmissionFences.ReceivedIsAdmissible | src/free_claude_code/messaging/workflow.py:350-354 | from its receipt on a turn can be admitted until the first stop, or clear of its chat |
| AdmissionFences.StopIsAFence | src/free_claude_code/messaging/workflow.py:499-511 | after a completed stop every live turn, in any continuation, was received after it |
| AdmissionFences.ClearIsAFence | src/free_claude_code/messaging/workflow.py:520-564 | after a completed clear every live turn of that chat was received after it |
| AdmissionFences.OtherClearsDoNotMatter | src/free_claude_code/messaging/workflow.py:541-549 | leaving the clears of all other chats out of a run changes nothing for a chat: the same of its turns are live and can be admitted |
| AdmissionFences.FailedStopStillFences | src/free_claude_code/messaging/workflow.py:503-506 | a stop whose cancellation raises leaves live only turns that were live and that it failed to cancel |
| AdmissionFences.FailedClearStillFences | src/free_claude_code/messaging/workflow.py:541-563 | a clear whose tree queue raises after the boundary leaves live, of the turns of its chat received before, only those that were live and that it failed to cancel |
| AdmissionFences.MessagingWorkflow.Receive | src/free_claude_code/messaging/workflow.py:350-354 | the token is captured when the message is received |
| AdmissionFences.MessagingWorkflow.AdmitIfCurrent | src/free_claude_code/messaging/workflow.py:392-414 | admits exactly while the token is current |
| AdmissionFences.MessagingWorkflow.StopAllTasks | src/free_claude_code/messaging/workflow.py:499-511 | the generation advances before the tree queue is cancelled |
| AdmissionFences.MessagingWorkflow.ClearChat | src/free_claude_code/messaging/workflow.py:528-549 | reads that fail leave everything alone; otherwise the chat's generation advances |
| ServerSupervision.RunKeepsInv | src/free_claude_code/cli/commands.py:72-185 | whenever a server is published, a stop or a restart newer than its settings implies should_exit; scheduled and running exclude one another; a stop is permanent |
| ServerSupervision.GenerationCountsRestarts | src/free_claude_code/cli/commands.py:120-134 | the restart generation counts exactly the accepted restarts |
| ServerSupervision.EntryOutcome | src/free_claude_code/cli/commands.py:72-90 | a thread enters the loop exactly if none is in it and no stop came, and a run is scheduled exactly if none is scheduled or running |
| ServerSupervision.RestartOutcome | src/free_claude_code/cli/commands.py:120-143 | a restart is accepted exactly while a run is scheduled or going on and no stop came; it and a stop tell a published server to exit |
| ServerSupervision.LoopOutcome | src/free_claude_code/cli/commands.py:91-185 | what each of the loop's own steps leads to, when nothing interferes |
| ServerSupervision.ToldToExitExactly | src/free_claude_code/cli/commands.py:165-185 | over every run from the publication of a server, as long as it serves and gets no signal: it is told to exit if and only if a stop came or a restart newer than its settings was accepted |
| ServerSupervision.DecisionHonoursRestarts | src/free_claude_code/cli/commands.py:180-185 | from the capture on, the decision continues if and only if a restart was accepted meanwhile, the runtime closed and no stop came |
| ServerSupervision.AcceptedRestartsAreNoticed | src/free_claude_code/cli/commands.py:120-134 | anywhere before the decision an accepted restart is noticed |
| ServerSupervision.RestartIsLostExactly | src/free_claude_code/cli/commands.py:91-185 | an accepted restart is lost, so that the loop is left without capturing again, if and only if it was accepted on the way out or the loop ended by an exception, a stop or a runtime that did not close before the next capture |
| ServerSupervision.LateRestartIsLost | src/free_claude_code/cli/commands.py:114-134 | a restart accepted after the decision to leave is acknowledged and lost |
| ServerSupervision.StopEndsTheLoop | src/free_claude_code/cli/commands.py:136-147 | from wherever the loop is when a stop comes it only moves towards its end: no later test or decision continues it and no run begins |
| ServerSupervision.ServerSupervisor.EnterRun | src/free_claude_code/cli/commands.py:84-90 | a second run is refused, and a stopped one returns |
| ServerSupervision.ServerSupervisor.ScheduleRunOnce | src/free_claude_code/cli/commands.py:72-79 | a run is scheduled unless stopped, scheduled or running |
| ServerSupervision.ServerSupervisor.PublishServer | src/free_claude_code/cli/commands.py:170-174 | a server published late is told to exit |
| ServerSupervision.ServerSupervisor.Decide | src/free_claude_code/cli/commands.py:180-185 | the decision as a function of generation, stop and runtime |
| ServerSupervision.ServerSupervisor.Restart | src/free_claude_code/cli/commands.py:120-134 | accepted while scheduled or running, and tells a published server |
| ServerSupervision.ServerSupervisor.Stop | src/free_claude_code/cli/commands.py:136-143 | permanent, and tells a published server |
| SubprocessOutput.ReadLines | src/free_claude_code/cli/managed/session.py:158-188 | for every division of stdout into chunks, the lines handed on are the non-blank cleaned segments of the whole output |
| SubprocessOutput.TakeLines | src/free_claude_code/cli/managed/session.py:173-188 | the inner loop hands on every complete line, and keeps the rest |
| SubprocessOutput.SplitIsUnique | src/free_claude_code/cli/managed/session.py:175-181 | there is one way to divide bytes at their newlines, and splitting finds it |
| SubprocessOutput.SplitLosesNothing | src/free_claude_code/cli/managed/session.py:175-181 | joining the segments with newlines gives the bytes back |
| SubprocessOutput.LinesAre | src/free_claude_code/cli/managed/session.py:173-188 | exactly the cleaned, non-blank segments are handed on, but no empty rest after the last newline |
| SubprocessOutput.ChunksDoNotMatter | src/free_claude_code/cli/managed/session.py:158-188 | two deliveries of the same bytes give the same lines |
| SubprocessOutput.DrainStderrBounded | src/free_claude_code/cli/managed/session.py:62-88 | keeps exactly the longest prefix within the cap and reads the pipe to its end |
| GatewayModelIds.DecodeEncoded | src/free_claude_code/core/gateway_model_ids.py:54-80 | decoding an encoded provider/model: the provider, the model without the 1M suffix, and the flags |
| GatewayModelIds.EncodedIdsResolve | src/free_claude_code/application/routing.py:60-133 | a listed id resolves to exactly its provider and model, with reasoning off for the no-thinking form, if and only if the model does not end in [1m] |
| GatewayModelIds.OneMIdsResolve | src/free_claude_code/core/gateway_model_ids.py:45-51 | the 1M id always resolves to its provider and model |
| GatewayModelIds.BareRefsResolve | src/free_claude_code/application/routing.py:122-133 | a bare provider/model reference resolves with the 1M suffix stripped |
| GatewayModelIds.OnlySupportedProviders | src/free_claude_code/application/routing.py:60-133 | only supported providers are routed to, and a name without a slash is left to the route of its tier |
| GatewayModelIds.SuffixedModelIsLost | src/free_claude_code/core/gateway_model_ids.py:56-58 | a listed id that resolves to another model |
| GatewayModelIds.ProvidersAreDistinguishable | src/free_claude_code/config/provider_catalog.py:135-430 | no supported provider id has a slash or equals a gateway prefix |
| GatewayModelIds.CodexSlugsResolve | src/free_claude_code/cli/launchers/codex_model_catalog.py:113-148 | every Codex slug resolves like the listed id it was derived from |
| ModelCatalog.FirstsAre | src/free_claude_code/api/model_catalog.py:229-235 | the collected models are duplicate-free and miss no id |
| ModelCatalog.CandidateNames | src/free_claude_code/cli/launchers/codex_model_catalog.py:44-67 | a candidate is shown under its item's name, or its id if that has none or an empty one |
| ModelCatalog.AppendVariants | src/free_claude_code/api/model_catalog.py:238-274 | appends the variants of one model that are not listed yet |
| ModelCatalog.VariantsAre | src/free_claude_code/api/model_catalog.py:238-274 | a model is listed normally unless it can not think, always without thinking, and with 1M context exactly if its window has that size; each form with its own display name |
| ModelCatalog.BuildModelsList | src/free_claude_code/api/model_catalog.py:100-199 | the list is a duplicate-free permutation of the collected models: the configured ones in their order, the pinned ones in theirs, the rest sorted by name and id |
| ModelCatalog.ListedVariantsResolve | src/free_claude_code/api/model_catalog.py:238-274 | an id listed for a provider model leads back to it through the router, and so does its Codex slug, if and only if the model's name does not end in [1m] or the id is the one that adds it |
| ModelCatalog.ListedIdsResolve | src/free_claude_code/api/model_catalog.py:100-199 | the list has every id of every configured and cached model, and all of them lead back to their models if and only if no model's name ends in [1m] |
| ModelCatalog.BuildCodexModelCatalog | src/free_claude_code/cli/launchers/codex_model_catalog.py:44-67 | its loop keeps the first candidate of each slug and numbers them |
| ModelCatalog.CodexCatalogIsComplete | src/free_claude_code/cli/launchers/codex_model_catalog.py:44-67 | every slug is listed once, and no candidate is lost but no-thinking ones whose model is listed normally |

## Left out

- AdmissionResources.AttemptsRespectTheWindow: bounds the admissions by their timestamps in the window, not the instants at which upstream calls start, because the program takes the timestamp before it waits for a concurrency slot.
- VoiceTheorems.NoCallbackDeadlock: covers waits made by cancel, cancel_all and cancel_scope; a callback that calls discard for another claim is not protected in the program and is outside the claim.
- DeliveryQueue.FuturesAreAccountedFor: assumes that the pause and the quota wait fail only by cancellation; after any other exception the worker goes on without resolving the job it had taken, and `SkippedJobIsLost` shows what that costs.
- ServerSupervision.DecisionHonoursRestarts: restarts accepted after the decision are outside the claim; `RestartIsLostExactly` says which restarts are lost.
- ResponseLifetime.ServeRequest: a response the server neither calls nor closes keeps its lease.
- Liveness: a session told to retry stays leader if its caller never reopens, so that every waiter eventually proceeds is not established.
- ProviderAdmission.ProviderAttempt.Succeeded: a first report on an attempt that was closed without one is not modelled, although the object would take it; no caller reports on an attempt it has closed.
- ProviderAdmission.ProviderAttempt.Retry: the same.
- ProviderAdmission.RunWithRetry: runs with its session alone; what other sessions do while it waits in open_attempt is the answer of that call.
- ResponseLifetime.CreateResponse: its lease stands for one lease of a generation; that a first release takes the manager's step is in `ProviderManager.ProviderRuntimeManager.ReleaseLease`.
- The model cache, its publication, discovery and the settings of a generation.
- `fire_and_forget` with its retries and the flood-wait parsing in the delivery queue.
- The tree queue, session store, provider runtimes, SSE converters, transcripts and platform adapters: sets, or operations that may fail.
- Classification of provider errors, Retry-After parsing, redaction, request-shape detection, command parsing.
- Byte-level decoding and stripping of a line, `str.casefold`, the route table of Claude tier names: function parameters or a separate outcome.
- HTTP, FastAPI wiring, subprocess and signal handling, file writes, admin page, tray, launchers, settings, logging and tracing.
- Reasoning budget resolution and the model fallback loop, which would only add easy members.

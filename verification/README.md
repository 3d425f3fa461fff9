# Ateliera catalogue: the paid-traffic ledger, secret installation, live events and job control

This project models the parts of the catalogue services whose correctness spans
several functions or a whole run, and proves what they keep.

- **The paid-traffic ledger** (`Rows`, `Ledger`, `LedgerProofs`, `LedgerTheorems`,
  `Pacing`, `Admission`, `Attempts`, `Settlements`, `Reports`, `Lifecycles`, `Shares`,
  `LedgerDays`, `Allocations`, `LedgerStore`): budget cycles, reservations and
  per-attempt authorizations. Every transaction is a function on the tables; the class
  `Store` performs it as statements on its fields and is proved equal to that
  function. Tables only grow, so a row id is a position. The column
  `atSettlement` is history that no operation reads.
- **Lock order** (`LockOrder`, `LockedRuns`): the row locks of the six ledger
  transactions as a machine, tied to the ledger by a proof that no transaction
  changes a row it does not lock, and run beside tables that grow under it.
- **Crash-safe secret installation** (`SecretFile`, `Import`, `ImportSystem`,
  `ImportProofs`, `ImportTheorems`, `ImportRequests`, `ImportOutcomes`, `ImportInstalls`,
  `ImportAllocations`, `ImportStore`): a database intent, a
  compare-and-swap of the secret file outside any transaction, and a finalizing
  transaction, with a crash possible between any two steps and with ledger
  traffic in between.
- **The gateway secret store** (`KeyedFile`, `GatewayRecords`, `GatewayStore`):
  strict records, and the file as a versioned map, which is what the import
  protocol assumes of it.
- **The live event stream** (`Clients`, `Stream`, `EventLog`, `Broker`, `Fanout`,
  `FanoutProofs`, `FanoutTheorems`, `FanoutReach`, `FanoutMemory`, `FanoutOverlap`,
  `Reconnect`, `Subscriptions`): one client's bounded queue and its consumer; the
  watermark, the replay buffer and the fan-out; the tasks interleaved at their awaits.
- **Job control** (`JobControl`, `JobProofs`, `JobTheorems`, `JobEnvelopes`, `JobPauses`,
  `JobCommands`, `JobAttempts`, `JobTable`): the operator's guarded updates
  together with the worker statements and the outbox they race with.
- **Two pure companions** (`Columns`, `ColumnUrl`, `Gtin`): the column
  arrangement of the explorer, and GTIN normalisation.

`Tables` holds optional values and the sums that the SQL aggregates compute.

Assumptions of the models:

- A transaction is one atomic step. Only the import protocol writes the gateway
  file and the Webshare profiles' rows; a dispatched compare-and-swap ends before
  its session lock does. Every other writer of a profile row (provisioning,
  rotation, draining) is one event that may rewrite any column of another
  provider's profile except its provider and name.
- Execution tokens and operation ids are fresh.
- Where a theorem names runs in order, ids of `event_log` become visible in
  increasing order; the theorems without that premise say exactly what is lost.

## Where the code and its documentation or intent differ

- Overflow of a client's queue: the module comment promises a `resync` message.
  The queue is still full when it is put, so it is never sent; the stream just
  ends (`Stream.NoticeIsNeverSent`, `Stream.OverflowClosesSilently`).
- A replay is offered up to 500 rows before the client reads, into a queue of 256:
  a client that is owed more gets one message and the end of its stream
  (`Reconnect.OfferIsSentIff`, `Reconnect.ReconnectIsServedIff`).
- Overlapping drains: the replay buffer can then hold an id twice and have a gap
  although its oldest id looks low enough, and a returning client silently misses
  an event (`FanoutOverlap.OverlapLeavesGap`). A buffer in which no id repeats has
  no gap (`FanoutMemory.DistinctMemoryHasNoGap`).
- Ids committed out of order are skipped by the watermark
  (`FanoutTheorems.OutOfOrderIsLost`, `FanoutTheorems.PublishedIffNotOvertaken`);
  `FanoutReach.VisibleInTimeIff` says which drains in flight still publish them.
- An attempt booked after its reservation settled is not in the cycle's counter
  until some later settlement (`LedgerTheorems.BookingIsCountedIff`,
  `LedgerTheorems.CloseCatchesUpIff`).
- A close writes the lease's own request count. Where that includes an attempt that
  is still in flight, booking the attempt counts it again, and a cap on requests can
  be passed by as many
  (`Attempts.CloseKeepsCapIff`).
- An allocation change decides on a size, a limit and a busy flag read before its
  transaction, and writes to the row of the cycle that was active then. It can
  break a profile's envelope although it read the profile busy
  (`Allocations.BusyReadIsNotEnough`), and the capacity of a cycle that has closed
  (`Allocations.ClosedCycleIsOverfilled`); `Allocations.StaleAllocationReadIff`,
  `Allocations.SplitRunsAreSoundIff` and, with imports in between,
  `ImportAllocations.MixedRunsAreCoherentIff` say exactly when it keeps the books.
- A source pause takes over a running job whose operator asked for a pause, and
  the source's resume then requeues it (`JobPauses.PauseSurvivesToggleIff`). A
  running job that has not parked when its source is resumed keeps its pause
  request, parked too late or its lease expired (`JobPauses.ToggleRevivesIff`).
- A queued job can be left without an envelope, and nothing but a new generation
  brings one back (`JobEnvelopes.LostUntilNewGeneration`): by a resume that
  withdraws a pause request after the envelope was consumed
  (`JobTheorems.ResumeCanStrand`); by the resume of a source that was paused when
  the job was created (`JobEnvelopes.SourcePauseCanStrand`); by a worker whose lease
  runs out before it starts (`JobEnvelopes.LateStartCanStrand`) or that offers none
  of the allowed backends (`JobEnvelopes.UnfittingWorkerCanStrand`).
  `JobEnvelopes.StrandsIff` and `JobEnvelopes.NeverLostIff` say exactly when.

## Model

| member | source | states |
|---|---|---|
| LedgerTheorems.CeilingWithSlack | catalogue-dump/src/mb_ceramics_catalogue/proxy.py:276-295 | in every run of ledger transactions a cycle's application bytes plus its active or revocation-requested envelopes exceed the ceiling by at most the slack: overrun at settlement plus bookings after it |
| LedgerTheorems.FrugalRunsKeepCeiling | catalogue-dump/src/mb_ceramics_catalogue/proxy.py:336-429 | if every report keeps to its estimate and envelope and comes before settlement, the ceiling is never crossed, through any mix of reserve, attempt, close, late settlement and stale cleanup |
| LedgerTheorems.SettlementShift | catalogue-dump/src/mb_ceramics_catalogue/proxy.py:366-429 | one settlement moves a caught-up cycle's committed bytes by usage minus envelope and nothing else |
| LedgerTheorems.OverrunCrossesCeiling | catalogue-dump/src/mb_ceramics_catalogue/proxy.py:366-429 | without the slack term the ceiling is false: a run of six transactions from the empty tables passes it |
| LedgerTheorems.BookingIsCountedIff | catalogue-dump/src/mb_ceramics_catalogue/proxy.py:604-645 | booking an attempt leaves the cycle's counter equal to its settled usage exactly when the reservation had not settled |
| LedgerTheorems.CloseCatchesUpIff | catalogue-dump/src/mb_ceramics_catalogue/proxy.py:366-429 | a close catches a lagging counter up exactly when it changes the reservation row |
| LedgerTheorems.ExhaustionLatches | catalogue-dump/src/mb_ceramics_catalogue/proxy.py:410-426 | once reported or application bytes reach the ceiling, in every continuation the kill switch stays on and neither a reservation nor an attempt is admitted in that cycle |
| LedgerTheorems.AttemptsAreConserved | catalogue-dump/src/mb_ceramics_catalogue/proxy.py:562-695 | until it settles a reservation's booking is the sum of its reconciled actuals; booked plus pending exceeds the envelope by at most the attempts' overruns |
| LedgerTheorems.BookingIsExactlyOnce | catalogue-dump/src/mb_ceramics_catalogue/proxy.py:594-668 | after any run a repeated reconcile changes nothing, different actuals are refused, and the attempt can no longer be released |
| LedgerTheorems.ReleaseIsFinal | catalogue-dump/src/mb_ceramics_catalogue/proxy.py:671-695 | after any run a released attempt stays released and cannot be reconciled |
| LedgerTheorems.CloseIsExactlyOnce | catalogue-dump/src/mb_ceramics_catalogue/proxy.py:366-407 | after any run a repeated close with the same usage changes nothing |
| LedgerTheorems.AllocationsFit | catalogue-control/src/catalogue_control/proxy_api.py:952-992 | in every run the allocations of a cycle fit beside its unmanaged share and each profile's unsettled bytes fit its allocation |
| Allocations.StaleAllocationReadIff | catalogue-control/src/catalogue_control/proxy_api.py:1154-1373 | a write on an old read keeps every book of the ledger exactly when the new size covers what the row has unsettled now and either the row is the active cycle's or its own cycle has the room |
| Allocations.SplitRunsAreSoundIff | catalogue-control/src/catalogue_control/proxy_api.py:1333-1373 | however many allocation changes overlap with each other and with traffic, the ledger is sound throughout a run exactly when every write fits at the time it is made |
| Allocations.ReadStaysOwn | catalogue-control/src/catalogue_control/proxy_api.py:1154-1179 | a row read before the transaction is still its profile's own after any run |
| Allocations.BusyReadIsNotEnough | catalogue-control/src/catalogue_control/proxy_api.py:1342-1347 | a concrete write that was busy when read, is not below what was read, and breaks the profile's envelope |
| Allocations.ClosedCycleIsOverfilled | catalogue-control/src/catalogue_control/proxy_api.py:1348-1373 | a concrete write to the row of a cycle that closed since it was read, past that cycle's capacity |
| ImportAllocations.MixedRunsAreCoherentIff | catalogue-control/src/catalogue_control/proxy_api.py:1333-1373 | in a run that mixes imports, crashes, recoveries, traffic and allocation changes on old reads, both stores stay coherent and every book holds throughout exactly when every write fits at the time it is made |
| ImportAllocations.ReadStaysOwnUnderImports | catalogue-control/src/catalogue_control/proxy_api.py:1154-1179 | a row read before the transaction is still its profile's own after any run of imports, traffic and other writes |
| LedgerTheorems.OneCycleCoversNow | catalogue-dump/src/mb_ceramics_catalogue/proxy.py:205-219 | the refusal for several active cycles cannot be reached |
| LedgerProofs.RunKeepsSound | catalogue-dump/src/mb_ceramics_catalogue/proxy.py:183-761 | every run keeps the ledger's invariant, and rows evolve monotonically: settled states, reconciled and released attempts are absorbing, counters never fall |
| LedgerProofs.ReserveKeepsSound | catalogue-dump/src/mb_ceramics_catalogue/proxy.py:183-333 | an admitted reservation keeps the cycle's, the profile's and the attempts' books |
| LedgerProofs.CloseKeepsSound | catalogue-dump/src/mb_ceramics_catalogue/proxy.py:336-451 | closing and late settlement keep the books and the latch |
| LedgerProofs.StaleKeepsSound | catalogue-control/src/catalogue_control/proxy_control.py:466-558 | the stale cleanup keeps the books of every cycle it touches |
| LedgerProofs.AuthorizeKeepsSound | catalogue-dump/src/mb_ceramics_catalogue/proxy.py:454-591 | an authorization never lets booked plus pending bytes pass the envelope |
| LedgerProofs.BookKeepsSound | catalogue-dump/src/mb_ceramics_catalogue/proxy.py:594-668 | reconciling an attempt keeps every sum it enters |
| LedgerProofs.OpenKeepsSound | catalogue-control/src/catalogue_control/proxy_api.py:671-768 | opening a proposed cycle keeps one active cycle per provider |
| LedgerProofs.LegacyOpenKeepsSound | catalogue-dump/src/mb_ceramics_catalogue/proxy.py:732-771 | the command-line open, an upsert, keeps one active cycle and the monotone counter |
| LedgerProofs.CreateProfileKeepsSound | catalogue-control/src/catalogue_control/proxy_api.py:952-992 | creating a profile with its allocation keeps the cycle's capacity |
| LedgerProofs.AllocationKeepsSound | catalogue-control/src/catalogue_control/proxy_api.py:1333-1373 | an allocation change taken as one step keeps capacity and envelopes |
| Admission.AdmittedIff | catalogue-dump/src/mb_ceramics_catalogue/proxy.py:183-333 | a request is admitted to a cycle exactly when it is admissible there: the one covering cycle, live identity, and room in allocation, cycle, daily pace and pilot, with a free job or probe, each read off the rows |
| Admission.ReservedIff | catalogue-dump/src/mb_ceramics_catalogue/proxy.py:183-333 | in every run a request is reserved exactly when some cycle admits it, and then one active row with the request's identity, envelope and pilot flag is added and nothing else changes |
| Admission.RemainingDaysReachEnd | catalogue-dump/src/mb_ceramics_catalogue/proxy.py:296-296 | the remaining days are the fewest, one at least, that reach the cycle's end |
| Attempts.AuthorizedIff | catalogue-dump/src/mb_ceramics_catalogue/proxy.py:454-591 | an attempt is granted exactly when its arguments are lawful, identity, cycle and reservation are live and unrevoked, booked plus pending plus estimate fits the envelope, and booked requests plus attempts in flight are below the cap; it lacks capacity exactly when only one of the last two fails; a grant adds one authorized attempt of that estimate and nothing else writes |
| Attempts.RequestsStayWithinCap | catalogue-dump/src/mb_ceramics_catalogue/proxy.py:572-579 | over any run in which every authorization of a reservation carries one cap, attempts book one request at most and closes count what fits, booked plus pending requests never exceed the cap |
| Attempts.CloseKeepsCapIff | catalogue-dump/src/mb_ceramics_catalogue/proxy.py:366-407 | a close keeps the cap exactly when its request count fits beside the attempts in flight |
| Attempts.BookedIff | catalogue-dump/src/mb_ceramics_catalogue/proxy.py:594-668 | the first result of an attempt is added to its reservation, the same one again is only answered, any other is refused; the answer says whether the envelope is overdrawn |
| Attempts.ReleasedIff | catalogue-dump/src/mb_ceramics_catalogue/proxy.py:671-695 | an authorized attempt can be released, again and again; one with a result cannot |
| Reports.ReportReaches | catalogue-dump/src/mb_ceramics_catalogue/proxy.py:708-729 | a report raises the reported bytes of the cycle it names, stamps its verdict and success, and turns its switch on at the budget; it touches no other cycle |
| Reports.StandingIsReported | catalogue-dump/src/mb_ceramics_catalogue/proxy.py:708-729 | over any run a cycle's reported bytes are the maximum of its start value and all reports for it, its verdict that of the last report and its time that of the last success, but for its opening, which withdraws the verdict |
| Reports.ReportLatches | catalogue-dump/src/mb_ceramics_catalogue/proxy.py:715-722 | after any run a report of at least the operational bytes leaves the switch on, and in no continuation is a reservation or an attempt admitted in that cycle |
| Reports.SwitchedOffIff | catalogue-control/src/catalogue_control/proxy_api.py:536-547 | a transaction turns a cycle's switch off exactly when it clears the provider's switch and the cycle is active, below its budget by both counts, successfully reconciled at most twenty minutes ago, with an enabled profile of the provider |
| Reports.TrafficResumesOnlyCleared | catalogue-control/src/catalogue_control/proxy_api.py:536-547 | a cycle whose switch was on and is off after a run was cleared in between under all those gates |
| Reports.StopReaches | catalogue-control/src/catalogue_control/proxy_api.py:507-525 | activating turns on exactly the switches of the provider's active cycles; revoking also marks exactly its active reservations |
| Reports.RevokedForGood | catalogue-control/src/catalogue_control/proxy_api.py:513-525 | an envelope that was open when its provider was revoked is never granted an attempt again, even after the switch is cleared |
| Reports.PilotReaches | catalogue-control/src/catalogue_control/proxy_api.py:567-600 | the pilot starts only on a fresh and successful reconciliation of an active cycle, and stops on request |
| Settlements.CloseReaches | catalogue-dump/src/mb_ceramics_catalogue/proxy.py:366-407 | a close leaves an open envelope closed with its usage raised, raises a cancelled one on late usage, and writes no other row |
| Settlements.ClosedTakesNoReport | catalogue-dump/src/mb_ceramics_catalogue/proxy.py:366-407 | after a close a further report on the same reservation changes nothing |
| Settlements.CleanupReaches | catalogue-control/src/catalogue_control/proxy_control.py:466-558 | the cleanup cancels exactly the open rows that both of its reads found |
| Settlements.ClosedUsageIsFinal | catalogue-dump/src/mb_ceramics_catalogue/proxy.py:366-429 | once closed a reservation stays closed over any run, and its usage moves only by what its attempts are booked with |
| Lifecycles.LifecycleIs | catalogue-control/src/catalogue_control/proxy_api.py:671-768 | every transaction moves a cycle's lifecycle exactly as opening, ending and overtaking say |
| Lifecycles.ProposalAppears | catalogue-control/src/catalogue_control/proxy_api.py:603-668 | a proposal is inserted once per start, stopped and unreconciled, within the purchased bytes |
| Lifecycles.HandCycleAppears | catalogue-dump/src/mb_ceramics_catalogue/proxy.py:732-771 | a cycle opened by the command line starts active and reconciled, and stopped if its budget is used up |
| Lifecycles.OpenedCycleWaits | catalogue-control/src/catalogue_control/proxy_api.py:671-768 | after any run an opened cycle admits nothing until a successful report and a clearing came after the opening |
| Shares.CreatedIff | catalogue-control/src/catalogue_control/proxy_api.py:952-992 | a profile is created exactly when its name is free and its share fits what the running cycle has not given away, and then with exactly that share |
| Shares.ChangedIff | catalogue-control/src/catalogue_control/proxy_api.py:1333-1373 | a share changes exactly when the profile is provisioned, its provider limit and, while it carries traffic, its former share are respected, and the cycle has room |
| Shares.NoneCreated | catalogue-control/src/catalogue_control/proxy_api.py:952-992 | without a running cycle no profile is created and no share changed |
| Shares.NoneChanged | catalogue-control/src/catalogue_control/proxy_api.py:1154-1179 | a profile without a share of the running cycle gets none by a change |
| Shares.RoutedIff | catalogue-control/src/catalogue_control/proxy_api.py:771-821 | a route is added only to an enabled profile in service |
| Admission.ConsumersStayUnique | catalogue-dump/src/mb_ceramics_catalogue/storage/schema/catalogue-schema.sql:2668-2668 | in every run a job has at most one unsettled reservation and a probe at most one ever |
| Pacing.AdmittedIsPaced | catalogue-dump/src/mb_ceramics_catalogue/proxy.py:287-301 | an admitted request satisfies (day usage + active + requested) times remaining days at most operational minus accounted minus active |
| Pacing.DailyImpliesCeiling | catalogue-dump/src/mb_ceramics_catalogue/proxy.py:287-301 | the daily check implies the cycle-ceiling check |
| Pacing.AllowanceNeverFalls | catalogue-dump/src/mb_ceramics_catalogue/proxy.py:287-301 | over any number of days, a day that spends within its floor-divided allowance never lowers a later day's, and the ceiling holds |
| LedgerDays.PacedDaysKeepAllowance | catalogue-dump/src/mb_ceramics_catalogue/proxy.py:255-301 | in every ledger run of days without carry-over, with frugal reports and a provider that reports no more than was counted, no day opens with a lower daily limit than an earlier one, and the ceiling holds each morning |
| LedgerDays.DayStaysWithin | catalogue-dump/src/mb_ceramics_catalogue/proxy.py:287-301 | whatever a day reserves, books and settles in any order, what it commits stays within the limit that its morning opened with |
| LedgerStore.Store.Reserve | catalogue-dump/src/mb_ceramics_catalogue/proxy.py:183-333 | the guarded insert equals the admission function: first failing guard, or one appended reservation |
| LedgerStore.Store.CloseReservation | catalogue-dump/src/mb_ceramics_catalogue/proxy.py:336-451 | the two guarded updates and the cycle update equal the settlement function on all tables |
| LedgerStore.Store.CloseStale | catalogue-control/src/catalogue_control/proxy_control.py:466-558 | both loops, over reservations and touched cycles, equal the cleanup function; nothing closed means nothing changed |
| LedgerStore.Store.Authorize | catalogue-dump/src/mb_ceramics_catalogue/proxy.py:454-591 | grants, lacks capacity or refuses exactly as the authorization function says |
| LedgerStore.Store.ReconcileAttempt | catalogue-dump/src/mb_ceramics_catalogue/proxy.py:594-668 | books the attempt once, answers a repetition, refuses the rest |
| LedgerStore.Store.ReleaseAttempt | catalogue-dump/src/mb_ceramics_catalogue/proxy.py:671-695 | releases an undispatched attempt, idempotently |
| LedgerStore.Store.ReconcileProvider | catalogue-dump/src/mb_ceramics_catalogue/proxy.py:708-729 | the monotone counter upsert over the matching cycles, with the latch |
| LedgerStore.Store.RevokeAll | catalogue-control/src/catalogue_control/proxy_api.py:513-525 | the kill switch and the revocation marks, row by row |
| LedgerStore.Store.ClearKillSwitch | catalogue-control/src/catalogue_control/proxy_api.py:536-547 | clears exactly the cycles that pass every safety gate; none cleared means nothing changed |
| LedgerStore.Store.OpenCycle | catalogue-control/src/catalogue_control/proxy_api.py:671-768 | expired cycles close and the proposal opens, or everything rolls back |
| LedgerStore.Store.CreateProfile | catalogue-control/src/catalogue_control/proxy_api.py:952-992 | profile and allocation rows, or nothing if a guard fails |
| LedgerStore.Store.ChangeAllocation | catalogue-control/src/catalogue_control/proxy_api.py:1333-1373 | the write of an allocation on what was read before its transaction |
| LockOrder.NeverDeadlocked | catalogue-dump/src/mb_ceramics_catalogue/proxy.py:352-363 | from every reachable set of held and awaited row locks of reserve, authorize, reconcile, release, close and cleanup some transaction can step |
| LockedRuns.GrowingLedgerNeverDeadlocks | catalogue-dump/src/mb_ceramics_catalogue/proxy.py:352-363 | while ledger transactions add reservations and cycles and others hold or await locks by plans read on earlier tables, some transaction can always step and, without new arrivals, all commit |
| LockedRuns.PlansStay | catalogue-control/src/catalogue_control/proxy_control.py:493-504 | a plan read off the tables stays well formed however they grow, because rows keep their cycle and their probe |
| LockOrder.EveryoneCommits | catalogue-control/src/catalogue_control/proxy_control.py:493-504 | without new arrivals an order exists in which every transaction takes its locks and commits |
| LockOrder.InnerWaiterEnds | catalogue-control/src/catalogue_control/proxy_control.py:493-572 | a wait for a reservation or a probe ends at a transaction that can step, although a cleanup takes both in any order: two cleanups cannot be inside one cycle |
| LockOrder.RunKeepsLocksSound | catalogue-dump/src/mb_ceramics_catalogue/proxy.py:472-546 | in every run of lock requests, commits and rollbacks no two transactions hold conflicting locks |
| LockOrder.ChangedRowsAreLocked | catalogue-dump/src/mb_ceramics_catalogue/proxy.py:604-645 | each of the six transactions changes only rows its plan locks exclusively |
| LockOrder.LedgerPlansAreWellFormed | catalogue-dump/src/mb_ceramics_catalogue/proxy.py:472-546 | on linked tables the transactions ask for locks in the stated order only |
| LockOrder.CleanupPlanServes | catalogue-control/src/catalogue_control/proxy_control.py:493-534 | the sorted cycles of the candidates, their rows and their probes are what a cleanup has to lock |
| ImportTheorems.GenerationsAgree | catalogue-control/src/catalogue_control/webshare_profile_import.py:438-469 | in every run of imports, crashes, recoveries and traffic the file generation equals the database generation when no intent is live and is ahead by 0 or 1 while one is, with the profile disabled |
| ImportTheorems.ConflictsAreUnreachable | catalogue-control/src/catalogue_control/webshare_profile_import.py:521-683 | neither generation-conflict failure can be recorded or is ever about to be |
| ImportTheorems.ReservedUnderInstalledGeneration | catalogue-dump/src/mb_ceramics_catalogue/proxy.py:231-253 | in every run an admitted reservation carries the installed generation of an enabled profile without a live intent |
| ImportTheorems.AuthorizedUnderInstalledGeneration | catalogue-dump/src/mb_ceramics_catalogue/proxy.py:500-520 | in every run an attempt is authorized only under the installed generation |
| ImportTheorems.UnsettledTrafficIsCurrent | catalogue-control/src/catalogue_control/webshare_profile_import.py:406-446 | every unsettled reservation carries the generation in force in both stores, so rotation waits for draining |
| ImportTheorems.LedgerHoldsUnderImports | catalogue-control/src/catalogue_control/webshare_profile_import.py:304-347 | the ceiling with its slack, capacity, envelopes and the exhaustion latch hold in every run that mixes imports with traffic |
| ImportTheorems.SettledIntentIsFinal | catalogue-control/src/catalogue_control/webshare_profile_import.py:663-675 | completed and failed intents are absorbing in every continuation |
| ImportTheorems.NeverDispatchedAgain | catalogue-control/src/catalogue_control/webshare_profile_import.py:723-745 | once an intent is written and its dispatcher swapped or died, no retry or recovery dispatches again |
| ImportTheorems.AtMostOneDispatch | catalogue-control/src/catalogue_control/webshare_profile_import.py:745-759 | at most one compare-and-swap is dispatched per operation |
| ImportTheorems.RecoveryPass | catalogue-control/src/catalogue_control/webshare_profile_import.py:663-694 | after any run one recovery settles an intent by the file's generation and the rows: failed if the replacement was not taken, completed with the profile enabled against exactly the cycle that binds it, or installed with RebindRequired, its own cycle and the profile disabled if none does |
| ImportOutcomes.FinalizedIff | catalogue-control/src/catalogue_control/webshare_profile_import.py:521-658 | a live intent whose row is at the expected or the target generation completes against cycle d exactly when the profile has an allocation there and d is its own cycle, current and safe, or its own is not current and d is the safe active Webshare cycle covering now; otherwise it is installed with RebindRequired, keeps its cycle and the profile is disabled |
| ImportOutcomes.ConflictFails | catalogue-control/src/catalogue_control/webshare_profile_import.py:562-600 | a row at a third generation fails the intent and disables the profile |
| ImportOutcomes.MarkedIff | catalogue-control/src/catalogue_control/webshare_profile_import.py:501-518 | failing disables the profile and keeps the code of the first failure; a completed intent is left alone |
| ImportRequests.PreparedIff | catalogue-control/src/catalogue_control/webshare_profile_import.py:275-469 | a request gets an intent exactly when it creates a profile, adopts what a failed creation left, or rotates one that carries no traffic; it drains exactly the one that does, and is refused otherwise |
| ImportRequests.PreparedWrites | catalogue-control/src/catalogue_control/webshare_profile_import.py:275-469 | an intent names the billing cycle and the next generation beside the profile's rows; draining disables the profile and marks its active reservations; a refusal writes nothing |
| ImportInstalls.InstallDelivers | catalogue-control/src/catalogue_control/webshare_profile_import.py:697-759 | after any run an admitted request that nobody disturbs is settled by its own steps, however the replacement reports: the file holds the new generation exactly if it took effect, and intent and profile say so |
| ImportInstalls.SwapReaches | catalogue-control/src/catalogue_control/webshare_profile_import.py:484-498 | a dispatched replacement takes effect whenever it is not lost and the file has room; its report decides only who goes on |
| ImportInstalls.ReadReaches | catalogue-control/src/catalogue_control/webshare_profile_import.py:663-683 | recovery goes by the file's generation alone and does nothing if the file cannot be read |
| ImportInstalls.CommitReaches | catalogue-control/src/catalogue_control/webshare_profile_import.py:501-660 | the last transaction completes, waits, or fails the intent with its code, and enables the profile in the first case alone |
| ImportInstalls.RetryReaches | catalogue-control/src/catalogue_control/webshare_profile_import.py:723-744 | asking again for what an operation already has an intent for starts its recovery, and nothing else does |
| ImportTheorems.GenerationCountsCompletions | catalogue-control/src/catalogue_control/webshare_profile_import.py:634-658 | over any run a profile's generation moves by exactly one per completed operation |
| ImportTheorems.KeyNamesOneOperation | catalogue-control/src/catalogue_control/webshare_profile_api.py:197-250 | an idempotency key names one operation for ever; a different request under it is refused while it is started |
| ImportTheorems.EmptySystemIsCoherent | catalogue-control/src/catalogue_control/webshare_profile_import.py:275-469 | the empty system starts every such run |
| ImportProofs.TraceKeepsCoherent | catalogue-control/src/catalogue_control/webshare_profile_import.py:275-759 | every run keeps the cross-store invariant |
| ImportProofs.PrepareKeepsCoherent | catalogue-control/src/catalogue_control/webshare_profile_import.py:275-469 | preparing, adopting, rotating and draining keep the two stores coherent |
| ImportProofs.FinalizeKeepsCoherent | catalogue-control/src/catalogue_control/webshare_profile_import.py:521-660 | finalizing, with the rebind to the current cycle, keeps them coherent |
| ImportProofs.FailKeepsCoherent | catalogue-control/src/catalogue_control/webshare_profile_import.py:501-518 | failing an intent keeps them coherent |
| ImportProofs.SwapKeepsAgreed | catalogue-control/src/catalogue_control/webshare_profile_import.py:484-498 | a dispatched swap keeps them coherent, however its outcome is reported |
| ImportProofs.DrainKeepsCoherent | catalogue-control/src/catalogue_control/webshare_profile_import.py:406-437 | draining quarantines the profile and marks its reservations, which keep their generation |
| ImportStore.Importer.BeginOrResume | catalogue-control/src/catalogue_control/webshare_profile_api.py:197-250 | the insert-or-find statement equals its function |
| ImportStore.Importer.Prepare | catalogue-control/src/catalogue_control/webshare_profile_import.py:275-469 | the prepare transaction equals its function on all tables |
| ImportStore.Importer.Finalize | catalogue-control/src/catalogue_control/webshare_profile_import.py:521-660 | the finalize transaction equals its function on all tables |
| ImportStore.Importer.MarkFailed | catalogue-control/src/catalogue_control/webshare_profile_import.py:501-518 | the failing transaction equals its function; it rolls back for a completed intent |
| ImportStore.Importer.RevokeProfile | catalogue-control/src/catalogue_control/webshare_profile_import.py:417-424 | the row loop marks exactly the profile's active reservations |
| ImportStore.Importer.StartInstall | catalogue-control/src/catalogue_control/webshare_profile_import.py:697-745 | lock, then prepare or fall back to recovery: one step of the system |
| ImportStore.Importer.CompareAndSwap | catalogue-control/src/catalogue_control/webshare_profile_import.py:484-498 | the dispatched swap: one step of the system |
| ImportStore.Importer.ReadSecret | catalogue-control/src/catalogue_control/webshare_profile_import.py:663-683 | the recovery decision: one step of the system |
| ImportStore.Importer.Commit | catalogue-control/src/catalogue_control/webshare_profile_import.py:501-660 | the finalizing or failing transaction: one step of the system |
| GatewayRecords.RecordRoundTrip | catalogue-dump/src/mb_ceramics_catalogue/webshare_gateway_secrets.py:170-283 | a record parses back exactly when it is valid, and then to itself with sorted countries |
| GatewayRecords.ParsedIsRecord | catalogue-dump/src/mb_ceramics_catalogue/webshare_gateway_secrets.py:170-217 | whatever parses is valid, filed under its own key, and is its record but for the order of countries |
| GatewayRecords.ReprintIsExactIff | catalogue-dump/src/mb_ceramics_catalogue/webshare_gateway_secrets.py:264-283 | rewriting a parsed entry reproduces it exactly when its countries were listed in order |
| GatewayRecords.FileRoundTrip | catalogue-dump/src/mb_ceramics_catalogue/webshare_gateway_secrets.py:220-244 | every valid set of profiles survives printing and strict parsing |
| GatewayRecords.ParsedIsValid | catalogue-dump/src/mb_ceramics_catalogue/webshare_gateway_secrets.py:220-244 | a parsed file is a valid set of at most 256 profiles; no two entries name one profile |
| GatewayRecords.SortIsUnique | catalogue-dump/src/mb_ceramics_catalogue/webshare_gateway_secrets.py:279-279 | an ascending listing of the countries is their sorting |
| GatewayRecords.KeyTextIsInjective | catalogue-dump/src/mb_ceramics_catalogue/webshare_gateway_secrets.py:428-431 | provider/name texts of one provider are injective |
| GatewayStore.InstallRefines | catalogue-dump/src/mb_ceramics_catalogue/webshare_gateway_secrets.py:370-401 | an installation succeeds exactly when the versioned map of generations admits the swap, and then swaps exactly that |
| GatewayStore.InstallReadsBack | catalogue-dump/src/mb_ceramics_catalogue/webshare_gateway_secrets.py:370-401 | reading the file after an installation shows exactly its effect; a refusal leaves the file as it was |
| GatewayStore.RemoveReadsBack | catalogue-dump/src/mb_ceramics_catalogue/webshare_gateway_secrets.py:403-421 | reading the file after a removal shows exactly its effect; a refusal leaves the file as it was |
| GatewayStore.RunReadsBack | catalogue-dump/src/mb_ceramics_catalogue/webshare_gateway_secrets.py:370-401 | runs of installations on the file are runs on the profiles it holds |
| GatewayStore.GenerationsCountUp | catalogue-dump/src/mb_ceramics_catalogue/webshare_gateway_secrets.py:382-399 | over any removal-free run each name's generations count up by one without gap, and at most 256 profiles exist |
| GatewayStore.OneWinner | catalogue-dump/src/mb_ceramics_catalogue/webshare_gateway_secrets.py:382-399 | of the installations that expect one generation at most one succeeds |
| GatewayStore.InstalledIff | catalogue-dump/src/mb_ceramics_catalogue/webshare_gateway_secrets.py:370-401 | a record takes its name's place exactly when it is valid, the name is at the expected generation, the record at the next one and no limit is passed |
| GatewayStore.RemovedIff | catalogue-dump/src/mb_ceramics_catalogue/webshare_gateway_secrets.py:403-421 | a name is removed exactly when it is at the expected generation, and no other is touched |
| GatewayStore.OldRemovalFails | catalogue-dump/src/mb_ceramics_catalogue/webshare_gateway_secrets.py:403-421 | after any installations a removal that expects a generation left behind fails |
| GatewayStore.ReadCountries | catalogue-dump/src/mb_ceramics_catalogue/webshare_gateway_secrets.py:151-167 | the loop accepts exactly the arrays of valid, distinct countries |
| GatewayStore.Sorted | catalogue-dump/src/mb_ceramics_catalogue/webshare_gateway_secrets.py:279-279 | the sorting loop returns the sorted countries |
| GatewayStore.SecretStore.PrintFile | catalogue-dump/src/mb_ceramics_catalogue/webshare_gateway_secrets.py:423-433 | the written object is the printed form of the profiles |
| GatewayStore.SecretStore.Install | catalogue-dump/src/mb_ceramics_catalogue/webshare_gateway_secrets.py:370-401 | the compare-and-swap on the file, with every refusal |
| GatewayStore.SecretStore.Remove | catalogue-dump/src/mb_ceramics_catalogue/webshare_gateway_secrets.py:403-421 | the conditional removal, with every refusal |
| Clients.PendingIsLatest | catalogue-control/src/catalogue_control/broker.py:137-143 | what waits for the next flush is exactly the last reading of every job |
| Clients.PendingKeepsPlaces | catalogue-control/src/catalogue_control/broker.py:137-143 | a job keeps the place of its first reading since the flush, however often it reports |
| Subscriptions.ListensExactly | catalogue-control/src/catalogue_control/broker.py:129-135 | over any run a live viewer is offered exactly what concerns its subscription of all that is published, in that order |
| Subscriptions.OfferedConcerns | catalogue-control/src/catalogue_control/broker.py:129-135 | a viewer of a run is offered of the job and progress messages on its topics exactly those of its run, of its other topics everything; a viewer of no run everything on its topics; nobody another topic |
| Subscriptions.JoinedIff | catalogue-control/src/catalogue_control/broker.py:349-371 | a returning viewer is told to start over exactly beyond 500 ids, and is otherwise served from memory exactly if memory reaches back to its last id and has anything newer |
| Subscriptions.AnswerIsSelected | catalogue-control/src/catalogue_control/broker.py:384-387 | the table's answer is offered to the viewer that asked, as far as it concerns it, after what it heard meanwhile |
| Subscriptions.FailureIsTold | catalogue-control/src/catalogue_control/broker.py:380-382 | a viewer whose table query fails is told so and goes on live |
| Subscriptions.QueueTakesSelected | catalogue-control/src/catalogue_control/broker.py:137-154 | while there is room, publishing appends exactly what concerns the client and is not a reading, and keeps its readings |
| Subscriptions.FlushQueuesLatest | catalogue-control/src/catalogue_control/broker.py:156-160 | a flush with room queues the last reading of every job since the one before, once each, in the order in which they first reported |
| Clients.Subscriber.Offer | catalogue-control/src/catalogue_control/broker.py:137-154 | coalesce, queue, or mark for resync |
| Clients.Subscriber.Remember | catalogue-control/src/catalogue_control/broker.py:139-142 | the dictionary write keyed on the job |
| Clients.Subscriber.FlushProgress | catalogue-control/src/catalogue_control/broker.py:156-160 | the flush loop queues the pending readings that fit, in order |
| Stream.DeliveredIsPrefix | catalogue-control/src/catalogue_control/app.py:905-920 | what a client is sent of durable messages is a prefix of what it was offered, and without a drop only queued ones are outstanding |
| Stream.AtMostOneAfterDrop | catalogue-control/src/catalogue_control/app.py:905-920 | after the first drop at most one more message is sent, offered before the drop |
| Stream.NoticeIsNeverSent | catalogue-control/src/catalogue_control/broker.py:144-154 | no run sends the overflow notice unless that message was itself published |
| Stream.OverflowClosesSilently | catalogue-control/src/catalogue_control/broker.py:20-24 | a concrete client whose queue overflows gets one event and the end of its stream, not the documented resync message |
| Stream.Body.Turn | catalogue-control/src/catalogue_control/app.py:907-920 | one turn of the body is a run of the session machine |
| Stream.Body.Serve | catalogue-control/src/catalogue_control/app.py:905-920 | the streaming loop is a run of the session machine |
| Broker.Broker.Publish | catalogue-control/src/catalogue_control/broker.py:342-347 | the buffer remembers the event; a client that it does not concern keeps its state, and one that it concerns and that has room has it appended |
| Broker.Broker.PublishRows | catalogue-control/src/catalogue_control/broker.py:262-264 | the loop raises the watermark, fills the buffer and offers every row in order |
| Broker.Broker.DrainEvents | catalogue-control/src/catalogue_control/broker.py:254-264 | one drain publishes the next 500 rows above the watermark |
| Broker.Broker.Replay | catalogue-control/src/catalogue_control/broker.py:349-387 | a returning client is offered the buffer, the table rows or a resync, by the stated checks |
| EventLog.QueryCovers | catalogue-control/src/catalogue_control/broker.py:254-264 | a limited query misses nothing at or below the last row it returns |
| EventLog.LimitIsEnough | catalogue-control/src/catalogue_control/broker.py:349-379 | the row limit reaches every row within that distance of the last id |
| FanoutTheorems.EveryRowIsPublished | catalogue-control/src/catalogue_control/broker.py:254-264 | with ids visible in order, however listener and reconciler interleave, every visible row above the start and at or below the watermark has been published |
| FanoutTheorems.OnlyOvertakenRowsAreMissed | catalogue-control/src/catalogue_control/broker.py:254-264 | without that assumption, a row the watermark passed unpublished became visible after a drain had read beyond it |
| FanoutTheorems.PublishedIffNotOvertaken | catalogue-control/src/catalogue_control/broker.py:254-264 | with drains that run alone, such a row has been published exactly when the watermark was below it as it became visible |
| FanoutReach.CanBePublishedIff | catalogue-control/src/catalogue_control/broker.py:254-264 | in any state, whatever drains overlap, a visible row can still be published exactly when it has been, is above the watermark, or is in what a drain in flight holds or will read among its first 500 rows |
| FanoutReach.VisibleInTimeIff | catalogue-control/src/catalogue_control/broker.py:254-264 | as a row becomes visible in any run it can still be published exactly when the watermark is below it or a drain asked below it, has not read, and will find it among its first 500 rows |
| FanoutTheorems.OvertakenMeansBelowWatermark | catalogue-control/src/catalogue_control/broker.py:254-264 | a row is overtaken exactly when the watermark had reached its id as it became visible |
| FanoutTheorems.OutOfOrderIsLost | catalogue-control/src/catalogue_control/broker.py:254-264 | any two events committed against the order of their ids, with a drain after each: the earlier id is in the table, below the watermark and never published |
| FanoutTheorems.WatermarkNeverFalls | catalogue-control/src/catalogue_control/broker.py:263-263 | the watermark never falls |
| FanoutTheorems.DrainShrinksBacklog | catalogue-control/src/catalogue_control/broker.py:254-264 | a drain takes exactly up to 500 rows off the backlog |
| FanoutTheorems.DrainsCatchUp | catalogue-control/src/catalogue_control/broker.py:241-264 | with no new rows the watermark reaches the newest id after exactly as many drains as the backlog needs |
| FanoutTheorems.SeamHasNoGap | catalogue-control/src/catalogue_control/broker.py:349-402 | a reconnected viewer that was not told to resync has been offered every row it wants above its last id and up to the watermark, unless it was served from a memory with a gap |
| FanoutMemory.DistinctMemoryHasNoGap | catalogue-control/src/catalogue_control/broker.py:358-371 | with two draining tasks at most and ids in order, a buffer in which no id repeats holds every row a replay from it stands for |
| FanoutMemory.TwoTaskRunsHaveNoGaps | catalogue-control/src/catalogue_control/broker.py:206-264 | over such runs a viewer that joins while no id is twice in the buffer never meets a gap |
| FanoutMemory.TraceKeepsMemory | catalogue-control/src/catalogue_control/broker.py:206-264 | over such runs at most 500 older rows are published after the last publication of any row |
| FanoutTheorems.OnlyMemoryHasGaps | catalogue-control/src/catalogue_control/broker.py:365-371 | a replay from the table never leaves a gap |
| FanoutOverlap.OverlapLeavesGap | catalogue-control/src/catalogue_control/broker.py:365-371 | a run with two draining tasks and ids in order in which ids repeat in the buffer and it has a gap: a returning client is served from it and misses an event for good |
| FanoutTheorems.AloneRunsHaveNoGaps | catalogue-control/src/catalogue_control/broker.py:358-371 | with drains that run alone no replay from memory ever has a gap |
| FanoutTheorems.MemoryReplaysTheTable | catalogue-control/src/catalogue_control/broker.py:358-387 | with drains that run alone a replay from memory offers what the table query would, in the same order, up to the watermark |
| Reconnect.ReplayOverflowsIff | catalogue-control/src/catalogue_control/broker.py:349-387 | a replay into an empty queue keeps the first 256 wanted rows and marks the client exactly when there are more |
| Reconnect.OfferIsSentIff | catalogue-control/src/catalogue_control/app.py:905-920 | what is offered before the first read can all be sent exactly when it is at most 256 messages; otherwise, whatever happens, at most one is |
| Reconnect.ReconnectIsServedIff | catalogue-control/src/catalogue_control/broker.py:389-402 | a reconnected viewer without a gap can be sent every row it wants when at most 256 messages were offered before it reads, and is sent one at most otherwise |
| FanoutProofs.TraceKeepsFanSound | catalogue-control/src/catalogue_control/broker.py:254-402 | every interleaving keeps what is published, held, offered and owed in step |
| JobTheorems.ControlRaisesGeneration | catalogue-control/src/catalogue_control/queries.py:225-285 | a control raises a job's delivery generation by one exactly when it changes its state, and a job in flight has its envelope |
| JobTheorems.QueueEntriesDiffer | catalogue-control/src/catalogue_control/queries.py:225-285 | no two control-made queue entries of a job share a delivery generation, whatever runs between them |
| JobTheorems.GenerationsAreEnqueued | catalogue-dump/src/mb_ceramics_catalogue/ops/outbox.py:31-66 | in every run each generation in flight was enqueued and no envelope is ahead of its job |
| JobTheorems.TogglesKeepPausedJob | catalogue-control/src/catalogue_control/queries.py:425-446 | over any source toggles a job paused by an operator keeps its whole row |
| JobTheorems.StoppedUntilAsked | catalogue-control/src/catalogue_control/queries.py:225-285 | nothing but its own resume or retry revives a job that an operator paused or that ended |
| JobCommands.CommandReaches | catalogue-control/src/catalogue_control/queries.py:225-285 | every command and source setting does to every job's row exactly what its state calls for, and to no other row |
| JobCommands.CommandSends | catalogue-control/src/catalogue_control/app.py:425-465 | a command sends an envelope of the new generation for exactly the jobs that it puts back into the queue |
| JobCommands.UnrunDelivery | catalogue-dump/src/mb_ceramics_catalogue/ops/queue.py:98-134 | stale deliveries are dropped, a disabled or cancelled job ends, a paused one loses its envelope, an early one is delivered again |
| JobCommands.UnfitDelivery | catalogue-dump/src/mb_ceramics_catalogue/ops/queue.py:146-181 | a due job the worker cannot run is left, dropped, or sent on under a new generation |
| JobAttempts.AttemptStep | catalogue-dump/src/mb_ceramics_catalogue/ops/queue.py:206-237 | a retry of an ended job clears its attempts, a paid start adds one, and nothing else touches them |
| JobAttempts.AttemptsArePaidStarts | catalogue-dump/src/mb_ceramics_catalogue/ops/queue.py:206-237 | over any run without a retry a job's attempts rise by exactly its paid starts |
| JobAttempts.StartsStayInBudget | catalogue-dump/src/mb_ceramics_catalogue/ops/queue.py:135-144 | over any run without a retry a job never starts for pay more often than it has attempts left |
| JobAttempts.BudgetCanBeSpent | catalogue-dump/src/mb_ceramics_catalogue/ops/queue.py:135-144 | from a waiting job some run starts it exactly as often as its budget allows, and the next delivery then ends it |
| JobAttempts.RetriedRuns | catalogue-control/src/catalogue_control/queries.py:267-285 | after a retry of an ended job with a positive budget the first delivery of its new envelope to a fitting worker of an enabled, unpaused source runs it, whatever else went on but controls |
| JobAttempts.ParkedSpendsNothing | catalogue-control/src/catalogue_control/queries.py:238-252 | a parked job that is resumed spends no attempt on its next start, however long it waits and however often its lease is lost |
| JobAttempts.DeliveryIff | catalogue-dump/src/mb_ceramics_catalogue/ops/queue.py:71-203 | a due delivery ends the job whose attempts are spent and leases any other to a fitting worker, and nothing else is leased |
| JobAttempts.CancelDooms | catalogue-control/src/catalogue_control/queries.py:254-265 | whatever stops a job, of its own, of its run or of its source, dooms it |
| JobAttempts.CancelledNeverStarts | catalogue-control/src/catalogue_control/queries.py:254-265 | a cancelled or ended job never starts again in any run without its retry |
| JobAttempts.ExpiryIff | catalogue-dump/src/mb_ceramics_catalogue/ops/queue.py:312-353 | the sweep takes back exactly the leases that ran out: queued while an attempt or a free start is left, failed otherwise |
| JobAttempts.HolderWrites | catalogue-dump/src/mb_ceramics_catalogue/ops/queue.py:240-276 | renewing and releasing write only the row whose lease is held |
| JobAttempts.TokenWrites | catalogue-dump/src/mb_ceramics_catalogue/ops/worker.py:1403-1480 | parking and finishing write only the row whose token is held; an unfenced finish writes any |
| JobAttempts.RequireWrites | catalogue-dump/src/mb_ceramics_catalogue/ops/queue.py:279-309 | the browser fallback requeues the job for free under a new generation |
| JobPauses.PauseSurvivesToggleIff | catalogue-control/src/catalogue_control/queries.py:225-285 | whatever runs between request and park, a running job's pause ends as the operator's exactly when the operator paused last, and only then is it safe from the source's resume |
| JobPauses.ToggleRevivesIff | catalogue-control/src/catalogue_control/queries.py:425-446 | of the jobs in flight when their source is paused its resume revives exactly those that are paused by then, whatever workers and deliveries do in between; one still in flight keeps its pause request |
| JobEnvelopes.StrandsIff | catalogue-control/src/catalogue_control/app.py:425-465 | a step leaves a job that should run without a deliverable envelope exactly when it is one of five stranding steps, read off the row, its envelope and its source |
| JobEnvelopes.NeverLostIff | catalogue-dump/src/mb_ceramics_catalogue/ops/outbox.py:31-66 | in every run such a job has its envelope throughout exactly when no step strands it |
| JobEnvelopes.QueuedJobHasEnvelope | catalogue-dump/src/mb_ceramics_catalogue/ops/outbox.py:31-66 | in a run without a stranding step every queued job of an unpaused source, with no pause requested, has its current envelope in flight |
| JobEnvelopes.LostUntilNewGeneration | catalogue-dump/src/mb_ceramics_catalogue/ops/outbox.py:31-66 | a consumed envelope never comes back, so a lost job stays lost until its generation changes |
| JobEnvelopes.RedriveRescuesIff | catalogue-dump/src/mb_ceramics_catalogue/ops/outbox.py:172-200 | the dispatcher's redrive brings a lost job a new envelope exactly when its source is enabled and it is not to be cancelled |
| JobTheorems.ResumeCanStrand | catalogue-control/src/catalogue_control/queries.py:238-252 | a concrete run after which a resume leaves a queued job without any envelope |
| JobEnvelopes.SourcePauseCanStrand | catalogue-control/src/catalogue_control/queries.py:438-446 | a concrete run in which a job created while its source is paused is left queued without an envelope by the source's resume |
| JobEnvelopes.LateStartCanStrand | catalogue-dump/src/mb_ceramics_catalogue/ops/worker.py:585-599 | a concrete run in which a worker whose lease ran out before the start acknowledges the only envelope |
| JobEnvelopes.UnfittingWorkerCanStrand | catalogue-dump/src/mb_ceramics_catalogue/ops/queue.py:148-156 | a concrete run in which a worker that offers none of the allowed backends does |
| JobTheorems.ResumeEnqueuesIff | catalogue-control/src/catalogue_control/app.py:425-465 | a resume enqueues an envelope exactly when the job had parked |
| JobTheorems.FencedTokenIsDead | catalogue-dump/src/mb_ceramics_catalogue/ops/queue.py:206-237 | an execution token that a job no longer carries never fits it again |
| JobTheorems.FencedWorkerCannotWrite | catalogue-control/src/catalogue_control/queries.py:225-285 | after a control took a job away nothing its old worker sends changes it, in every continuation |
| JobProofs.TraceKeepsJobsSound | catalogue-control/src/catalogue_control/queries.py:225-459 | every run keeps tokens, generations and envelopes in step |
| JobProofs.DeliverMoves | catalogue-dump/src/mb_ceramics_catalogue/ops/queue.py:71-203 | a delivery reserves, ends or acknowledges without breaking that |
| JobTable.Table.ResumeJob | catalogue-control/src/catalogue_control/app.py:425-465 | the guarded update and the enqueue equal their function; refused exactly by the guard |
| JobTable.Table.RetryJob | catalogue-control/src/catalogue_control/queries.py:267-285 | the guarded update and the enqueue equal their function; refused exactly by the guard |
| JobTable.Table.CancelRun | catalogue-control/src/catalogue_control/queries.py:103-115 | the row loop equals its function |
| JobTable.Table.PauseSource | catalogue-control/src/catalogue_control/queries.py:425-436 | the row loop equals its function |
| JobTable.Table.StopSource | catalogue-control/src/catalogue_control/queries.py:448-459 | the row loop equals its function |
| JobTable.Table.WakeSource | catalogue-control/src/catalogue_control/queries.py:438-446 | the row loop requeues exactly what the source paused and returns its envelopes |
| JobTable.Table.UpdateSource | catalogue-control/src/catalogue_control/app.py:738-798 | which source transition fires when, with the enqueues |
| Columns.MergeColumns | catalogue-explorer/src/lib/columns.ts:143-160 | the two loops compute the merged arrangement |
| Columns.FileHidden | catalogue-explorer/src/lib/columns.ts:147-155 | the first loop files every hidden key under its anchor |
| Columns.MergeKeepsTrails | catalogue-explorer/src/lib/columns.ts:143-160 | the merged list shows the drag, and every hidden key follows its former anchor in its former order |
| Columns.MergeIsUnique | catalogue-explorer/src/lib/columns.ts:143-160 | it is the only duplicate-free list that does |
| Columns.MergeIsPermutation | catalogue-explorer/src/lib/columns.ts:143-160 | reordering some columns of a duplicate-free list yields a permutation of it |
| Columns.MergeIsPermutationIff | catalogue-explorer/src/lib/columns.ts:143-160 | no column is lost or invented exactly when the drag is a permutation of visible columns of the list |
| Columns.NarrowingIsLossless | catalogue-explorer/src/lib/columns.ts:73-88 | an undisturbed narrow sheet folds back to its arrangement, at every width |
| Columns.DragIsShown | catalogue-explorer/src/lib/columns.ts:73-160 | after a drag is folded back the sheet shows exactly what was dragged |
| Columns.FitShows | catalogue-explorer/src/lib/columns.ts:73-88 | a sheet shows, in their order, exactly the chosen columns whose rung its width reaches, or the first one if it reaches none |
| ColumnUrl.ReadColumnSet | catalogue-explorer/src/lib/columns.ts:103-115 | the nested loops read the URL's columns |
| ColumnUrl.ReadIsValid | catalogue-explorer/src/lib/columns.ts:103-115 | every URL reads as a non-empty list of known columns without repeats: what it mentions, or the default |
| ColumnUrl.DragOnAnyUrl | catalogue-explorer/src/lib/columns.ts:73-160 | folding back and narrowing hold for every URL, width and drag |
| ColumnUrl.UrlRoundTrip | catalogue-explorer/src/lib/columns.ts:103-115 | an arrangement written into the URL reads back |
| ColumnUrl.PickerListsEveryColumn | catalogue-explorer/src/lib/columns.ts:124-129 | the picker lists every column once, the shown ones first |
| Gtin.PaddingKeepsValid | catalogue-service/src/catalogue_service/app.py:52-60 | left zero padding changes neither check digit nor validity, at any length |
| Gtin.NormalIsFixed | catalogue-service/src/catalogue_service/app.py:52-60 | a normalized code has 14 valid digits and is its own normal form |
| Gtin.SingleErrorIsCaught | catalogue-service/src/catalogue_service/app.py:52-60 | any change of a single digit is rejected |
| Gtin.ValidByPositionIff | catalogue-service/src/catalogue_service/app.py:52-60 | a code is valid exactly when its digits, weighted 1 and 3 by position from the right, sum to a multiple of ten |
| Gtin.TranspositionIsCaughtIff | catalogue-service/src/catalogue_service/app.py:52-60 | exchanging two neighbouring digits is rejected exactly when they do not differ by five or zero |

## Left out

- LedgerTheorems.AllocationsFit: takes an allocation change as one step; changes whose read and write are apart are the subject of Allocations.SplitRunsAreSoundIff.
- FanoutTheorems.SeamHasNoGap: excludes viewers served from a memory with a gap, because overlapping drains can produce one; it speaks of what is offered, and Reconnect.ReconnectIsServedIff of what is sent.
- FanoutMemory.DistinctMemoryHasNoGap: one direction only; a buffer with a repeated id may still be complete.
- LockOrder.NeverDeadlocked: takes the cycles of reservations as fixed, where LockedRuns.GrowingLedgerNeverDeadlocks lets the tables grow.
- LockedRuns.GrowingLedgerNeverDeadlocks: takes probe rows as locked by the cleanup alone; it does not cover the prepare and finalize transactions of the import, nor the revoke-all action, which lock reservations or a second cycle outside the stated order; nor the key-share locks of foreign keys and waits on unique indexes.
- Pacing.AdmittedIsPaced: takes times as whole microseconds and days as aligned to UTC midnight; the float rounding of `total_seconds` is not modelled.
- GatewayRecords.FileRoundTrip: starts from decoded JSON; lexing, UTF-8 and repeated member names in the text are not modelled, and the size limit is a parameter of the operations.
- Gtin.NormalIsFixed: covers ASCII digits only; Python's `isdigit` accepts further Unicode characters.
- Ledger row widths (bigint, smallint), naive datetimes, the human-readable refusal texts, metrics, audit rows and the reconcile-request outbox: bookkeeping beside the modelled rows.
- `ProxyLease.account`: a per-process counter whose totals enter the model as the arguments of a close.
- Deletion of a profile row after a rejected provider call, provider limits and confirmation phrases: depend on the provider adapters, which are not part of this model.
- Blue-green rotation, drain and retirement finalizers and sub-user provisioning: one arbitrary profile write stands for them.
- Snapshots and usage buckets written by the provider reconciliation: reporting data; the monotone cycle counters are modelled.
- Request parsing, operator assertions, secret redaction, HTTP responses and headers: transport only.
- Mapping of an import result to an HTTP status: finishing an operation is an event with any outcome.
- The file system under the secret store (modes, links, locks with timeouts, fsync): the file is one atomically replaced value whose replacement may report failure after taking effect.
- Keepalives, the roster and progress queries of the broker: levels, published as messages of any content.
- JobEnvelopes.LostUntilNewGeneration: does not model republishing the whole outbox after a broker loss, which offers consumed envelopes again.
- Missing-outbox reconstruction, the run-level summary and the schedule: outside the job rows.
- Browser-route selection of a delivery: its outcome is a parameter (fits, unfit, elsewhere, rerouted).
- Search queries and keyset pagination of the catalogue service: not part of this model.

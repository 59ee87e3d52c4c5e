# Verification of the request runtime

These Dafny modules model the durable request runtime of the stock research orchestrator and four smaller parts around it,
and prove what they are relied on for. Run `dafny verify dfyconfig.toml` in this directory.

## What is modelled

**The durable runtime** (`requests/storage.py`, `requests/transport.py`). About twelve tables hold a fenced lease with
generations, logical requests and their write-once results, single-flight leaders and followers, a fair queue, eight-scope
rate and concurrency gates, and physical attempts. Every public repository method is one atomic transaction, called by any
number of processes that may crash between two calls and whose clocks may disagree.

| layer | modules |
|---|---|
| rows and tables | `Basics`, `Tables` |
| each transaction as a function from tables to tables or a fault, branch by branch | `Transactions` |
| the repository as a class whose methods change rows in loops and roll back; each does exactly what `Transactions` says | `Repository`, `OneByOne` |
| the joint invariant, and that each transaction keeps it and meets none of its own inconsistency branches | `Invariant`, `GateProofs`, `DeliveryProofs`, `FlightProofs`, `ResultProofs`, `AttemptProofs`, `EndProofs`, `CancelProofs`, `RecoveryProofs` |
| when each call succeeds, what it leaves in every table, and what none undoes | `Conditions`, `Outcomes`, `Effects`, `Evolution` |
| runs: any interleaving of calls, clock readings and crashes | `Runs`, `RepositoryRuns` |
| theorems over all runs | `Safety`, `Limits`, `Fairness` |
| the workers' program, and one exchange under a one-shot permit with others calling in between | `Drivers`, `Interleaving`, `Transport` |
| where the repository's own checks stop | `Hazards`, `HazardRun` |

A step of a run is one call with its clock reading; a crashed worker makes no further calls. Time is whole microseconds.
Fault names are those of the source, with several of its consistency codes merged into one.

The repository leaves three things to its callers (`Runs.Disciplined`): an attempt is reserved only for a claimed request, a
new attempt is put on the gates only if the request has no other live one, and only an attempt that holds its gates is
marked started. `Runs.StepKeepsInvIff` shows that these are exactly what the invariant needs: a call keeps it if and only if
its caller is disciplined. `Drivers.WorkersAreDisciplined` shows that the workers always are. `HazardRun.HazardReached` is a
concrete run after which an undisciplined caller makes every later takeover of the lease stop at an audit gap, and
`Hazards.StrandedUntilCancelled` describes the attempt that invites it: one left reserved after its reservation was
recovered can neither be started, finished nor discarded, so only cancelling its request ends it.

**Raw publication** (`requests/raw_artifacts.py`), in `Publication`: staging, rename and record are separate steps, each of
which can succeed, raise, or be the last thing the process does.

**The in-memory coordinator** (`requests/coordinator.py`), in `Coordination`: sliding window, interval, cooldown and
occupancy over the reals, with sends that call back into the coordinator.

**The price-library session** (`sources/yfinance/coordinated_session.py`), in `Session`.

**Financial values**: `Decimals` and `Adoption` (`preparation/financial_mapping.py`, `financial_acceptance.py`), `Coverage`
(`financial_multi_report.py`, `financial_comparative.py`).

**Stored timestamps** (`_timestamp` in `requests/storage.py`), in `Timestamps`. The fraction is omitted at zero
microseconds, so texts have two widths; section 5.1 of RFC 3339 promises order only for equal widths.

## Model

| member | source | states |
|---|---|---|
| `Runs.StepKeepsInvIff` | src/stock_research_llm_orchestrator/requests/storage.py:152-1606 | each of the thirteen transactions keeps the joint invariant of all tables if and only if its caller is disciplined, whatever its arguments and clock reading |
| `Runs.RunInv` | src/stock_research_llm_orchestrator/requests/storage.py:152-1606 | the joint invariant holds in every state of every disciplined run |
| `Runs.StepEvolves` | src/stock_research_llm_orchestrator/requests/storage.py:152-1606 | no call undoes results, states, ended attempts, settled reservations, start times, cooldowns or generations |
| `RepositoryRuns.Perform` | src/stock_research_llm_orchestrator/requests/storage.py:152-1606 | any one call of the imperative repository does what the run model says, and keeps the invariant exactly when disciplined |
| `RepositoryRuns.PerformAll` | src/stock_research_llm_orchestrator/requests/storage.py:47-1606 | a new repository goes through exactly the states of the run of the calls made on it |
| `RecoveryProofs.RecoverTotal` | src/stock_research_llm_orchestrator/requests/storage.py:1403-1553 | recovery of an expired lease takes none of its audit-gap, generation or inconsistency branches; afterwards nothing is started or held, every count is 0, start times and cooldowns are as before, and exactly the claimed queued requests without an attempt are queued again |
| `Safety.RecoveryAlwaysSucceeds` | src/stock_research_llm_orchestrator/requests/storage.py:1403-1553 | in every state of every disciplined run a takeover fails only if no lease is active, the clock is behind the last heartbeat, or the lease has not expired |
| `RecoveryProofs.AcquireLeaseTotal` | src/stock_research_llm_orchestrator/requests/storage.py:1350-1401 | a lease is acquired exactly if none is active, under the next generation, and its reconciliation changes nothing |
| `Safety.NothingToReconcile` | src/stock_research_llm_orchestrator/requests/storage.py:1743-1766 | reconciliation has nothing to do in any state of any disciplined run |
| `DeliveryProofs.ReconcileNoOp` | src/stock_research_llm_orchestrator/requests/storage.py:1743-1766 | on tables that satisfy the invariant reconciliation is the identity, for one fingerprint or all |
| `DeliveryProofs.ReconcileRepairs` | src/stock_research_llm_orchestrator/requests/storage.py:1689-1766 | from tables whose only fault is finished leaders, reconciling all flights or those of one fingerprint succeeds if and only if each such leader's attempts support its result; then each of these flights is over, each of its active consumers has the leader's result and names it as owner, every other consumer, result, flight and queue row is unchanged, the whole shape holds, and a second run changes nothing |
| `Safety.OneSenderPerFlight` | src/stock_research_llm_orchestrator/requests/storage.py:290-401 | as long as a flight stays active, through promotions, crashes and recoveries, all attempts started for it belong to one request |
| `Safety.StartedOnce` | src/stock_research_llm_orchestrator/requests/storage.py:1277-1299 | no physical attempt is started twice in a run |
| `Safety.NeverRequeued` | src/stock_research_llm_orchestrator/requests/storage.py:1447-1516 | a request with a started attempt is never queued again |
| `FlightProofs.AdmitTotal` | src/stock_research_llm_orchestrator/requests/storage.py:155-288 | admission under a valid fence fails exactly for a known identifier or a follower of another rate domain; its consistency branches are unreachable |
| `CancelProofs.CancelTotal` | src/stock_research_llm_orchestrator/requests/storage.py:290-401 | cancelling under a valid fence succeeds exactly for an active consumer; its consistency branches are unreachable, and a leader is replaced only if nothing may have been sent |
| `Safety.CancelAffects` | src/stock_research_llm_orchestrator/requests/storage.py:346-401 | who leaves with which outcome, which follower takes over and how it is queued, for a follower, a sent leader and an unsent leader |
| `ResultProofs.FinalizeTotal` | src/stock_research_llm_orchestrator/requests/storage.py:1322-1338 | finalisation succeeds exactly for a queued leader whose attempts support the outcome, under a valid fence; delivery never fails |
| `Safety.FinalizeDelivers` | src/stock_research_llm_orchestrator/requests/storage.py:1689-1740 | finalising gives outcome, completion time and error code to exactly the consumers active at that moment, and changes no other |
| `Safety.ResultsFinal` | src/stock_research_llm_orchestrator/requests/storage.py:1676-1687 | a result never changes, and the request's state is always the one its outcome maps to |
| `Safety.OwnersAgreeForever` | src/stock_research_llm_orchestrator/requests/storage.py:1689-1740 | in every later state a completed consumer's result equals its result owner's |
| `Safety.SuccessSoundForever` | src/stock_research_llm_orchestrator/requests/storage.py:1643-1673 | a succeeded request's owner has a last attempt that succeeded and no unknown or live one, then and ever after |
| `Safety.FencedEffect` | src/stock_research_llm_orchestrator/requests/storage.py:1988-2002 | a call with a lease copy changes something only while the stored lease is active with the same owner and generation |
| `Safety.GenerationsAscend` | src/stock_research_llm_orchestrator/requests/storage.py:1350-1401 | successful mutations come in nondecreasing order of generation, and one generation has one owner |
| `Safety.OldOwnerPowerless` | src/stock_research_llm_orchestrator/requests/storage.py:1988-2002 | once a later generation exists, a call with an older copy changes nothing |
| `Safety.NewOwnerNewGeneration` | src/stock_research_llm_orchestrator/requests/storage.py:1517-1542 | different owners at two moments have strictly increasing generations |
| `Limits.OnlyAcquireRaises` | src/stock_research_llm_orchestrator/requests/storage.py:599-779 | no call but an acquisition raises a count or records a start, and only claiming moves a cursor |
| `Limits.AcquireOn` | src/stock_research_llm_orchestrator/requests/storage.py:636-765 | an acquisition passed the check of each key it holds and adds one start and one count there, and nothing elsewhere |
| `Limits.StartTableComplete` | src/stock_research_llm_orchestrator/requests/storage.py:734-755 | the start table of a key is exactly the sequence of acquisitions of that key in the run |
| `Limits.WindowSafety` | src/stock_research_llm_orchestrator/requests/storage.py:646-667 | under a fixed limit every window of its length, anywhere in the history, has at most the allowed starts, whatever clocks and crashes do |
| `Limits.RunOrdered` | src/stock_research_llm_orchestrator/requests/storage.py:662-665 | start times of a key never go back even if clock readings do |
| `Limits.IntervalSafety` | src/stock_research_llm_orchestrator/requests/storage.py:662-665 | consecutive starts on a key are at least the minimum interval apart |
| `Limits.CooldownSafety` | src/stock_research_llm_orchestrator/requests/storage.py:877-889 | no start of a provider key comes before the deadline of an earlier retry-after |
| `Limits.ConcurrencySafety` | src/stock_research_llm_orchestrator/requests/storage.py:645-661 | under a fixed limit a key is never held by more than its maximum concurrency |
| `Limits.Counted` | src/stock_research_llm_orchestrator/requests/storage.py:722-765 | the stored count of a key is the number of active reservations that hold it |
| `GateProofs.HeldIsReleasable` | src/stock_research_llm_orchestrator/requests/storage.py:1870-1910 | under the accounts every decrement of a held reservation succeeds |
| `EndProofs.FinishTotal` | src/stock_research_llm_orchestrator/requests/storage.py:814-913 | finishing under a valid fence succeeds exactly for a reservation still held by this generation; counts are never found wrong |
| `AttemptProofs.ReserveKeepsInvIff` | src/stock_research_llm_orchestrator/requests/storage.py:959-1024 | reserving an attempt keeps the invariant if and only if the request was claimed |
| `AttemptProofs.AcquireKeepsInvIff` | src/stock_research_llm_orchestrator/requests/storage.py:689-765 | acquiring keeps the invariant if and only if it does not add a second live attempt, which the method does not check |
| `EndProofs.MarkKeepsInvIff` | src/stock_research_llm_orchestrator/requests/storage.py:1277-1299 | marking started keeps the invariant if and only if the attempt still holds its gates, which the method does not check |
| `Drivers.EventSafe` | src/stock_research_llm_orchestrator/sources/yfinance/production_port.py:342-380 | each event of the workers, crashes included, keeps what every worker relies on |
| `Drivers.WorkersAreDisciplined` | src/stock_research_llm_orchestrator/preparation/dukascopy_fx.py:213-310 | any interleaving of workers, cancellations, lease changes and crashes is a disciplined run |
| `Hazards.StrandedUntilCancelled` | src/stock_research_llm_orchestrator/requests/storage.py:1036-1052 | an attempt left reserved after its reservation was recovered stays so, and its request queued, until that request is cancelled |
| `Hazards.SecondAttemptBlocksRecovery` | src/stock_research_llm_orchestrator/requests/storage.py:2005-2036 | beside such an attempt a second one is accepted; started and cancelled, it makes every later takeover stop at an audit gap |
| `HazardRun.HazardReached` | src/stock_research_llm_orchestrator/requests/storage.py:689-713 | a concrete disciplined run reaches that state, so the discipline is necessary |
| `Fairness.Turn` | src/stock_research_llm_orchestrator/requests/storage.py:425-450 | one round-robin step never passes over a waiting task |
| `Fairness.NoTaskClaimedTwice` | src/stock_research_llm_orchestrator/requests/storage.py:419-487 | while a task waits in a domain, no other task of it is claimed twice without a claim of the waiting one in between |
| `Fairness.CursorRests` | src/stock_research_llm_orchestrator/requests/storage.py:419-487 | the cursor of a domain moves only when one of its entries is claimed |
| `Fairness.ClaimedIsLeader` | src/stock_research_llm_orchestrator/requests/storage.py:419-487 | every claimed request is the live, unfinished leader of an active flight and was never sent |
| `ResultProofs.ClaimKeepsInv` | src/stock_research_llm_orchestrator/requests/storage.py:419-487 | claiming keeps the invariant |
| `Effects.AdmitAffects` | src/stock_research_llm_orchestrator/requests/storage.py:155-288 | who follows whom, who opens a flight and is queued with the depths then within the limits, and who is failed at once because a limit was reached; no other request is affected |
| `Effects.ClaimAffects` | src/stock_research_llm_orchestrator/requests/storage.py:429-476 | a claim takes the entry that waited longest of the next waiting task in turn, or nothing exactly if nothing waits |
| `Conditions.PassIff` | src/stock_research_llm_orchestrator/requests/storage.py:636-680 | a start passes if and only if for each of the eight scopes no cooldown is left, a place is free, the minimum interval since the last start is over and the window has room; otherwise the first scope from global to role that does not is reported, with the first of these four that fails |
| `Conditions.AcquireIff` | src/stock_research_llm_orchestrator/requests/storage.py:615-733 | acquiring succeeds if and only if the lease is in force, the request claimed and still queued, all eight scopes pass, and a new reservation is made for a new attempt with the next number or for the reserved row the caller names, which has none |
| `Conditions.AcquireAffects` | src/stock_research_llm_orchestrator/requests/storage.py:699-755 | an acquisition takes exactly its eight gates, with one start on each and cooldowns as they were, and adds one reservation, and the attempt if it is new |
| `Conditions.ReserveIff` | src/stock_research_llm_orchestrator/requests/storage.py:971-1013 | reserving succeeds if and only if the lease is in force, the request is queued, none of its attempts is reserved, started or unknown, and the identifier is new; the number is one, or one more than the greatest |
| `Conditions.NeverReservedAgain` | src/stock_research_llm_orchestrator/requests/storage.py:982-987 | once an attempt of a request is unknown no later call of a run reserves another for it |
| `Conditions.FinalizeIff` | src/stock_research_llm_orchestrator/requests/storage.py:1643-1673 | finalising succeeds if and only if the lease is in force, the request is a queued leader, all its attempts are over, for a success the last one succeeded and none is unknown, and for an unknown outcome one is unknown |
| `Conditions.ClaimIff` | src/stock_research_llm_orchestrator/requests/storage.py:419-442 | claiming succeeds if and only if the lease is in force, and takes something if and only if something waits in the domain |
| `Conditions.MarkIff` | src/stock_research_llm_orchestrator/requests/storage.py:1286-1295 | marking succeeds if and only if the attempt is reserved and of this generation, and changes its state alone |
| `Conditions.DiscardIff` | src/stock_research_llm_orchestrator/requests/storage.py:1035-1048 | discarding succeeds if and only if the attempt is reserved, of this generation, and never had a gate reservation |
| `Conditions.FinishIff` | src/stock_research_llm_orchestrator/requests/storage.py:830-857 | ending succeeds if and only if the caller names a reservation this generation still holds, with its attempt and request |
| `Conditions.HeartbeatIff` | src/stock_research_llm_orchestrator/requests/storage.py:1555-1583 | a heartbeat succeeds if and only if the caller's own copy is within its term and the stored lease active, of its owner and generation; it changes the stored term alone |
| `Conditions.ReleaseIff` | src/stock_research_llm_orchestrator/requests/storage.py:1585-1605 | a release succeeds exactly when a heartbeat would |
| `Outcomes.CancelRows` | src/stock_research_llm_orchestrator/requests/storage.py:303-396 | every row of every table after a cancellation: who leaves with which outcome and error, which attempts, reservations and gates end, who is promoted and how it is queued |
| `Outcomes.FinalizeRows` | src/stock_research_llm_orchestrator/requests/storage.py:1676-1740 | every row of every table after a finalisation |
| `Outcomes.TakeOverRows` | src/stock_research_llm_orchestrator/requests/storage.py:1417-1541 | after a takeover started attempts are unknown, reserved ones of the new generation, held reservations recovered and gates empty, and exactly the claimed queued requests without an attempt are back in the queue |
| `Outcomes.WaitersAfter` | src/stock_research_llm_orchestrator/requests/storage.py:1460-1524 | everyone waiting for a leader that was being sent, or was between two attempts, gets the result written for it; everyone else waits on |
| `Outcomes.ClaimedAgain` | src/stock_research_llm_orchestrator/requests/storage.py:1447-1459 | a claimed request whose worker was gone before its first attempt waits again, and the new owner's claims in its domain find something |
| `Outcomes.RefusalIff` | src/stock_research_llm_orchestrator/requests/storage.py:2005-2036 | on any tables validation refuses exactly for an attempt of a later generation, or one that disagrees with its request in one of three ways |
| `Outcomes.ReconcileIff` | src/stock_research_llm_orchestrator/requests/storage.py:1743-1766 | on tables of the right shape reconciling succeeds if and only if every finished leader's attempts allow its result |
| `Effects.FinishAffects` | src/stock_research_llm_orchestrator/requests/storage.py:844-889 | ending an attempt lowers exactly its eight counts, prolongs only its provider's cooldown, never shortens one, and records the outcome |
| `Effects.RecoverAffects` | src/stock_research_llm_orchestrator/requests/storage.py:1460-1524 | recovery ends exactly the flights whose leader was being sent or between attempts and gives that result to everyone waiting; all others wait on |
| `Effects.HeartbeatAffects` | src/stock_research_llm_orchestrator/requests/storage.py:1555-1583 | after a heartbeat the fence lets through exactly copies of this owner and generation, exactly during the new term |
| `Effects.ReleaseAffects` | src/stock_research_llm_orchestrator/requests/storage.py:1585-1608 | after a release the fence lets nobody through, and whoever asks next gets the lease under the next generation |
| `Effects.DiscardUndoesReserve` | src/stock_research_llm_orchestrator/requests/storage.py:959-1052 | discarding a reserved attempt that never reached the gates restores all tables |
| `Effects.MarkAffects` | src/stock_research_llm_orchestrator/requests/storage.py:1277-1299 | a started attempt can be neither marked again nor discarded, its request can reserve no other, and its cancellation counts as possibly sent |
| `Repository.ProductionRequestRepository.AdmitLogicalRequest` | src/stock_research_llm_orchestrator/requests/storage.py:155-288 | the row-by-row method commits exactly the admission of the model or restores the tables it found |
| `Repository.ProductionRequestRepository.CancelAdmittedRequest` | src/stock_research_llm_orchestrator/requests/storage.py:290-401 | likewise for cancellation, with its loops over consumers, attempts and scopes |
| `Repository.ProductionRequestRepository.ClaimNextQueued` | src/stock_research_llm_orchestrator/requests/storage.py:419-487 | likewise for claiming |
| `Repository.ProductionRequestRepository.AcquireGates` | src/stock_research_llm_orchestrator/requests/storage.py:599-779 | likewise for acquisition, with its loops over the eight scopes |
| `Repository.ProductionRequestRepository.CheckGates` | src/stock_research_llm_orchestrator/requests/storage.py:636-680 | the loop finds the first scope, in acquisition order, that refuses a start |
| `Repository.ProductionRequestRepository.TakeGates` | src/stock_research_llm_orchestrator/requests/storage.py:734-765 | the loop counts and records a start on exactly the eight keys |
| `Repository.ProductionRequestRepository.FinishGateReservation` | src/stock_research_llm_orchestrator/requests/storage.py:814-913 | likewise for release, retry-after and unknown outcome |
| `Repository.ProductionRequestRepository.ReserveNextPhysicalAttempt` | src/stock_research_llm_orchestrator/requests/storage.py:959-1024 | likewise for reserving the next attempt |
| `Repository.ProductionRequestRepository.FinalizeLogicalRequest` | src/stock_research_llm_orchestrator/requests/storage.py:1322-1338 | likewise for finalisation |
| `Repository.ProductionRequestRepository.FinishSingleFlight` | src/stock_research_llm_orchestrator/requests/storage.py:1689-1740 | the loop delivers the result to every active consumer, or refuses exactly if one cannot receive it |
| `Repository.ProductionRequestRepository.ReconcileTerminalFlights` | src/stock_research_llm_orchestrator/requests/storage.py:1743-1766 | the loop over active flights, in any order, does what reconciling them at once does |
| `Repository.ProductionRequestRepository.CancelStartedFlight` | src/stock_research_llm_orchestrator/requests/storage.py:1913-1944 | the method ends a sent flight as the model does |
| `Repository.ProductionRequestRepository.ReplaceLeader` | src/stock_research_llm_orchestrator/requests/storage.py:353-401 | the method promotes the first follower, or ends the flight, as the model does |
| `Repository.ProductionRequestRepository.ReleaseGateOccupancy` | src/stock_research_llm_orchestrator/requests/storage.py:1870-1910 | the loops give back every gate a request holds, or refuse exactly if a count is wrong |
| `Repository.ProductionRequestRepository.AcquireLease` | src/stock_research_llm_orchestrator/requests/storage.py:1350-1401 | likewise for acquiring the lease |
| `Repository.ProductionRequestRepository.RecoverExpiredLease` | src/stock_research_llm_orchestrator/requests/storage.py:1403-1553 | likewise for taking over an expired lease, with every loop of its repair |
| `OneByOne.DeliverOneFlightMore` | src/stock_research_llm_orchestrator/requests/storage.py:1743-1766 | delivering one more flight after others is delivering them together |
| `OneByOne.ReconcilableUntouched` | src/stock_research_llm_orchestrator/requests/storage.py:1743-1766 | whether a flight can be reconciled does not depend on the flights reconciled before it |
| `OneByOne.LowerOneMore` | src/stock_research_llm_orchestrator/requests/storage.py:1870-1910 | releasing one more reservation after others is releasing them together, and possible exactly when that is |
| `Transport.PermitAuthority.Issue` | src/stock_research_llm_orchestrator/requests/transport.py:113-125 | a permit is issued exactly if its identifier is not active, and was never consumed |
| `Transport.PermitAuthority.Consume` | src/stock_research_llm_orchestrator/requests/transport.py:127-135 | a permit is good exactly once, for its own attempt, at the authority that issued it |
| `Transport.ProductionTransportCoordinator.ExecuteExchange` | src/stock_research_llm_orchestrator/requests/transport.py:233-329 | with any disciplined calls of others between its own: the attempt is marked started exactly if its gates are still held, it is unsent and the fence holds; the end is recorded, and the gates given back, exactly if then the fence holds and the reservation is still held; otherwise nothing is written and the attempt is still started or was ended by somebody else; a success is a permitted send answered from 200 to 299, unknown one that raised, anything else a failure, and only a 429 that asks for it prolongs the cooldown; at most one send, under a permit used once, for an attempt marked started |
| `Transport.UndisturbedExchange` | src/stock_research_llm_orchestrator/requests/transport.py:252-275 | if nobody else acts, an exchange that acquired its gates ends exactly if the fence still holds at the end |
| `Transport.CancelledWhileSending` | src/stock_research_llm_orchestrator/requests/storage.py:346-352 | a fence that holds is not enough: while an attempt is being sent its request can be cancelled, and then its end is never recorded although the lease is unchanged |
| `Interleaving.RunFromHolds` | src/stock_research_llm_orchestrator/requests/storage.py:152-1606 | disciplined calls of others, in any number, keep the invariant and undo nothing that is final |
| `Interleaving.AnchoredStays` | src/stock_research_llm_orchestrator/requests/storage.py:1870-1985 | whatever disciplined calls others make, an unsent attempt keeps its gates as long as the generation lasts |
| `Interleaving.StartedIffHolding` | src/stock_research_llm_orchestrator/requests/storage.py:722-733 | once started, an attempt is live exactly while its one reservation is held |
| `Publication.ReconciliationRepairs` | src/stock_research_llm_orchestrator/requests/raw_artifacts.py:135-161 | after a crash between any two steps no conflict is met, every record ends committed or failed, committed exactly if renamed and then with the intended bytes and metadata; again changes nothing |
| `Publication.RawArtifactPublisher.Publish` | src/stock_research_llm_orchestrator/requests/raw_artifacts.py:32-133 | wherever it raises or stops the two stores keep agreeing; undisturbed it publishes exactly if candidate, eligibility and digest agree, with the bytes of the candidate; repeated, it answers exactly if the same intent was committed |
| `Publication.RawArtifactPublisher.Reconcile` | src/stock_research_llm_orchestrator/requests/raw_artifacts.py:135-161 | the loop over records performs that repair, and lists exactly the pending publications that were renamed |
| `Publication.WrittenExactly` | src/stock_research_llm_orchestrator/requests/raw_artifacts.py:191-219 | a bundle written as intended verifies if and only if its bytes have the claimed digest |
| `Coordination.PrunedDecidesAlike` | src/stock_research_llm_orchestrator/requests/coordinator.py:96-117 | the pruned list decides, and hints, as the full history |
| `Coordination.AdmittedIff` | src/stock_research_llm_orchestrator/requests/coordinator.py:96-117 | an attempt may start if and only if none is in flight, cooldown and interval are over, and fewer starts of the whole history than allowed lie in the window |
| `Coordination.ReceivedIs` | src/stock_research_llm_orchestrator/requests/coordinator.py:192-221 | what a send records and answers: when it succeeds, when and how far the cooldown is prolonged, and which failure is told |
| `Coordination.RunDecidesAlike` | src/stock_research_llm_orchestrator/requests/coordinator.py:88-221 | so it does in every run, reentrant sends included |
| `Coordination.RunSpaced` | src/stock_research_llm_orchestrator/requests/coordinator.py:96-117 | every start of every run respects window and interval over the full history |
| `Coordination.WindowSafety` | src/stock_research_llm_orchestrator/requests/coordinator.py:96-117 | over every run no window of its length, wherever it ends, holds more starts of a domain than its limit |
| `Coordination.CooldownSafety` | src/stock_research_llm_orchestrator/requests/coordinator.py:102-117 | over every run no start falls inside a cooldown an earlier call was told of |
| `Coordination.HintExact` | src/stock_research_llm_orchestrator/requests/coordinator.py:170-176 | a later attempt is admitted if and only if it comes at or after now plus the hint |
| `Coordination.BlockedThenRetried` | src/stock_research_llm_orchestrator/requests/coordinator.py:166-176 | a call blocked on an idle domain changes nothing, and repeated later it is sent exactly from the hinted time on |
| `Coordination.NoSecondInFlight` | src/stock_research_llm_orchestrator/requests/coordinator.py:184-221 | inside a send every further call on the domain is refused and changes nothing |
| `Coordination.AttemptGood` | src/stock_research_llm_orchestrator/requests/coordinator.py:88-221 | every call, with any nesting of calls back, keeps the invariant and leaves no new domain occupied |
| `Coordination.Coordinator.Attempt` | src/stock_research_llm_orchestrator/requests/coordinator.py:88-221 | the method, with its domain objects and reentrant sends, does what the state function says |
| `Session.AtMostThreeCharts` | src/stock_research_llm_orchestrator/sources/yfinance/coordinated_session.py:248-320 | whatever is asked of a session, at most three charts are sent |
| `Session.FallbackIsExact` | src/stock_research_llm_orchestrator/sources/yfinance/coordinated_session.py:342-365 | a chart sent again for its kind repeats exactly the failed target under the other strategy |
| `Session.CompleteWasAnswered` | src/stock_research_llm_orchestrator/sources/yfinance/coordinated_session.py:225-228 | complete implies that a history chart was answered with a status below 300 |
| `Session.NothingSentAfterwards` | src/stock_research_llm_orchestrator/sources/yfinance/coordinated_session.py:248-252 | once poisoned or finalised a session stays so and sends nothing |
| `Session.FinalisedOnce` | src/stock_research_llm_orchestrator/sources/yfinance/coordinated_session.py:235-246 | of two events of a run at most one finalises the session |
| `Session.SuccessWasEarned` | src/stock_research_llm_orchestrator/sources/yfinance/coordinated_session.py:225-246 | a session finalised as a success has, then and ever after, a history chart answered with a status below 300 |
| `Session.SentIff` | src/stock_research_llm_orchestrator/sources/yfinance/coordinated_session.py:248-271 | a request is sent if and only if the session is usable and it asks in an approved way for a cookie, crumb or consent, or for a chart that is the first of its kind or the one allowed repetition; anything else poisons |
| `Session.ChartAnswered` | src/stock_research_llm_orchestrator/sources/yfinance/coordinated_session.py:302-319 | what each answer to a chart does: obtained, pending for one repetition, or poisoned |
| `Session.HistoryCompletes` | src/stock_research_llm_orchestrator/sources/yfinance/coordinated_session.py:225-228 | a history chart answered below 300 completes the session |
| `Session.StrategySelected` | src/stock_research_llm_orchestrator/sources/yfinance/coordinated_session.py:349-352 | which hosts select which strategy |
| `Session.FallbackGoesOut` | src/stock_research_llm_orchestrator/sources/yfinance/coordinated_session.py:355-365 | after a failed chart and a crumb of the other strategy the same chart goes out again |
| `Session.OtherAnswered` | src/stock_research_llm_orchestrator/sources/yfinance/coordinated_session.py:303-315 | from 300 on every other answer poisons, but for a missing cookie page |
| `Session.ImproperPoisons` | src/stock_research_llm_orchestrator/sources/yfinance/coordinated_session.py:278-301 | a call back during the exchange, or an improper answer, leaves the session poisoned |
| `Session.TargetAims` | src/stock_research_llm_orchestrator/sources/yfinance/coordinated_session.py:336-340 | a target is everything a chart asks for but the crumb |
| `Session.AskAll` | src/stock_research_llm_orchestrator/sources/yfinance/coordinated_session.py:108-365 | a new session goes through exactly the states of the run of what is asked of it, so the statements over runs hold of the class |
| `Session.CoordinatedSession.Ask` | src/stock_research_llm_orchestrator/sources/yfinance/coordinated_session.py:248-320 | the method does what the state function says, for any calls back during the exchange, keeps what holds between requests, and never has more than three charts sent |
| `Session.CoordinatedSession.Finish` | src/stock_research_llm_orchestrator/sources/yfinance/coordinated_session.py:235-246 | finishing keeps what holds between requests, and tells whether this call finished the session |
| `Decimals.RoundTrip` | src/stock_research_llm_orchestrator/preparation/financial_acceptance.py:158-163 | the emitted text of any decimal is accepted again and denotes the same number |
| `Decimals.SameIffSameText` | src/stock_research_llm_orchestrator/preparation/financial_acceptance.py:158-163 | two decimals are equal if and only if their emitted texts are identical |
| `Decimals.EmitIsReduced` | src/stock_research_llm_orchestrator/preparation/financial_acceptance.py:160-163 | the emitted text is the sign and fixed-point form of the fully reduced number |
| `Decimals.ParseIff` | src/stock_research_llm_orchestrator/preparation/financial_mapping.py:166-176 | a text is accepted if and only if it is digits with or without a point and a sign; it denotes the number of its digits with as many places as follow the point |
| `Decimals.NumberDigit` | src/stock_research_llm_orchestrator/preparation/financial_mapping.py:166-176 | each further digit multiplies by ten and adds its value |
| `Adoption.ReviewMetric` | src/stock_research_llm_orchestrator/preparation/financial_mapping.py:179-274 | the comparable ordinals are exactly those of facts with no reason against them, and the status says what their values are |
| `Adoption.ComparableIff` | src/stock_research_llm_orchestrator/preparation/financial_mapping.py:191-239 | a fact is comparable if and only if entity, period, dimensions, unit, scale and value are all as required |
| `Adoption.AdoptMetric` | src/stock_research_llm_orchestrator/preparation/financial_acceptance.py:123-173 | a value is adopted exactly if proof and review raise nothing and all comparable facts have the concept and one number, which the text denotes |
| `Adoption.LookedUp` | src/stock_research_llm_orchestrator/preparation/financial_acceptance.py:137-138 | looking the ordinals up again finds exactly the comparable facts |
| `Adoption.ReviewAndAdopt` | src/stock_research_llm_orchestrator/preparation/financial_acceptance.py:123-173 | of a reviewed metric the value is adopted exactly if the proof is clean and fits, the review found a single or duplicate candidate, and every comparable fact has the proven concept |
| `Coverage.MergeCoverage` | src/stock_research_llm_orchestrator/preparation/financial_multi_report.py:48-83 | merging succeeds exactly on well-formed input without two different values for one period and metric; its lines are those of the covered keys, and the error of a failed merge is really in the input |
| `Coverage.BlamedFails` | src/stock_research_llm_orchestrator/preparation/financial_multi_report.py:54-69 | each error a merge can report, if it is in the input, makes the input one on which merging cannot succeed |
| `Coverage.OrderIndependent` | src/stock_research_llm_orchestrator/preparation/financial_multi_report.py:48-83 | success and covered keys do not depend on the order of reports, records or values |
| `Coverage.SameLines` | src/stock_research_llm_orchestrator/preparation/financial_multi_report.py:75-83 | nor do the lines |
| `Coverage.CountsOnlyGrow` | src/stock_research_llm_orchestrator/preparation/financial_multi_report.py:75-83 | adding a report never lowers a period's count |
| `Coverage.AnnualCoverage` | src/stock_research_llm_orchestrator/preparation/financial_comparative.py:106-126 | a single report is covered exactly if its periods are distinct and required, with its accepted metrics |
| `Coverage.LineIs` | src/stock_research_llm_orchestrator/preparation/financial_comparative.py:106-126 | the line of a period counts its covered metrics, names the others, and is complete with all six, missing with none, partial otherwise |
| `Coverage.MergeIsAnnual` | src/stock_research_llm_orchestrator/preparation/financial_multi_report.py:48-83 | on one report, whose records have each metric at most once, merging covers the same metrics as the annual coverage and succeeds if and only if that does and every accepted value is a finite number |
| `Coverage.MergeRejectsMore` | src/stock_research_llm_orchestrator/preparation/financial_multi_report.py:59-67 | an accepted but absent value is an input that the annual coverage counts and the merge rejects |
| `Timestamps.TextOrderIsTimeOrder` | src/stock_research_llm_orchestrator/requests/storage.py:2522-2529 | for UTC datetimes the order of stored texts is the order of instants, and equal texts are equal instants |
| `Timestamps.TailOrder` | src/stock_research_llm_orchestrator/requests/storage.py:2528-2529 | an omitted fraction sorts before every fraction |
| `Timestamps.TextReads` | src/stock_research_llm_orchestrator/requests/storage.py:2528-2529 | the stored text reads back as its fields, with six fraction digits exactly if there is a fraction |
| `Timestamps.MicrosApart` | src/stock_research_llm_orchestrator/requests/storage.py:2522-2529 | the scale of instants: a microsecond, a second and a day apart, across ends of months and years |

## Left out

- SQLite, schema creation and migrations, file modes and fsync: a transaction and a rename are atomic.
- Identifiers are numbers in the order of their texts; columns that no transaction reads back are not modelled.
- Events and audit rows: only the presence of a consumer's audit row, which delivery checks, is modelled. The event a blocked `acquire_gates` commits is therefore no change.
- `add_logical_request`, `add_physical_attempt`, `enqueue_logical_request`: entry points that bypass the protocol; and `complete_logical_request` for requests that are not consumers, which skips validation.
- Several consistency errors of the source share one fault here; where it refuses is kept, the code it refuses with is not.
- A finished leader whose consumer row names another fingerprint is treated as inconsistent; the source could deliver such a flight in a database written by an older version.
- Durations in fractions of a second: lease, window, interval and retry-after lengths are whole microseconds.
- No bound on queue depth over runs is claimed, only right after an admission: promotion and recovery queue entries without looking at the limits.
- No progress is claimed for an attempt left reserved after its reservation was recovered.
- Outcome "unknown" after a cancellation says nothing about attempts: the source writes it for every sent leader.
- Hazards.SecondAttemptBlocksRecovery: stated for a second attempt that is started and then cancelled with its request, one way of breaking recovery among others.
- The drivers are modelled by the calls their program permits; the requests they send and what they do with responses are not.
- Transport: HTTP, credentials and the individual checks of a response are one case, an invalid response; the two forms of `execute_exchange` differ only in when they read the clock. Others may call the repository between any two calls of an exchange, but not use the same permit authority during a send.
- Publication: one publisher at a time, so no concurrent stale process; SHA-256 is an arbitrary function; the JSON files are values.
- Coordination: construction of events, and identifier factories that call back; floating-point rounding, as times are reals.
- Session: parsing of URLs is given by their parts; whether chart parameters agree with a bound intent is an input.
- Adoption: matching of entities and of units are inputs. Decimal digits are unlimited, as they are in the source for construction and formatting.
- Coverage: amounts are given as numbers; digest checks of the reports are not modelled.
- Timestamps: only UTC datetimes, which is what `_validate_utc` lets through.

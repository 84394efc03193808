# Verification of the ServerFlow gateway core

A Dafny model of the parts of ServerFlow that decide who is admitted, queued, retried, ejected and counted, with proofs
of what they promise. Every locked section of the Go code is one atomic step; clocks, registry views, random draws and
the answers of foreign systems are inputs. Times are integers, thresholds given as floating-point settings are reals.

| files | models |
|---|---|
| `Queue`, `Queues`, `Slots`, `SlotsSafety`, `LostWakeups`, `LostWakeupRuns`, `Credit`, `Router` | the admission queue with direct slot hand-off, composed with the router’s slot accounting |
| `Scheduler`, `Rotation` | the eligibility filter, the rotor and the least-loaded choice |
| `RateModel`, `RateTheorems`, `RateKeys`, `Doubles`, `RateScript`, `RateStore` | the rate limiter’s Go model, its Lua scripts and their keyspace |
| `Window`, `History`, `Budget` | the sliding window and the retry budget |
| `Breaker`, `BreakerProtocol`, `BreakerHistory`, `Breakers`, `BreakerFleet`, `BreakerAborts` | the circuit breakers, the ejection cap, and one breaker inside the set |
| `Scanner`, `Usage` | the streaming token scanner and the usage object |
| `Consumer` | the usage consumer with crash and replay |
| `Engine`, `Throughput` | the mock worker’s engine and its rate |
| `Lru`, `Auth`, `AuthRuns` | the key cache of the authenticator |

An operation is a function on values that says what it does; a class or a loop with invariants carries it out step by
step and is proved to do exactly that; the promises are lemmas about the functions, over every run.

## Where the code and its promises differ

The code is modelled as it is. Where a promise does not hold of it, a lemma gives the input or the run, and another says
exactly when it does hold.

- A wake-up is lost in two ways. A waiter whose client has gone fails its routing before it looks and then parks
  (`internal/gateway/resilience_queue.go:149-163`), and an arrival that saw waiters may enqueue after the last of them
  has left (`internal/gateway/router.go:365-369`). `NoLostWakeup` shows that nothing else loses one.
- `internal/resilience/queue.go:114-117` says that credit is spent the moment an idle waiter exists; `Enqueue` does not
  spend it. `CreditIsSpent` shows that nothing else leaves it, `CreditBesideASleeper` gives the run.
- The same comment ends by saying that a unit never goes to a later waiter while an earlier one is routing. It does:
  `SettleOvertakes` says exactly when, `LaterWaiterIsTold` gives the run, and `SpentInOrder` what is true instead.
- A worker whose registration leaves the view and comes back unchanged gets a new breaker
  (`internal/resilience/breakers.go:142-163`), so its open period and its stale tickets are forgotten (`ReAddForgets`,
  `ReAddCountsOldTicket`, `ReAddRun`). `FleetHoldsOpen` shows that the period is kept exactly when that does not happen.
- A release is reported by the Lua script only while the tenant’s set exists; the Go model remembers longer
  (`RepliesAreModels`, `ReleaseReplyDiffers`).
- The token count depends on the reads where a counted key starts on the closing quote of another
  (`CountIsSplitIndependent`).
- `internal/resilience/breakers.go:357` takes an unchanged epoch with the breaker closed to mean that the OK was counted.
  That is so exactly when the key’s present breaker counted it, which for an attempt with this breaker’s ticket or one of
  epoch 0 means that the key was known at the OK and has been kept since (`FleetOkIsHeld`). Otherwise `RecordAbort` may
  take another attempt’s OK out of the window, and the breaker trips although the rule does not hold (`AbortOfUnseenOk`,
  `AbortAfterReAdd`).
- `RecordAbort` takes the OK out of the bucket of `okAt`, which is read before `Record` reads its own clock.
  `AbortNamesAnotherBucket` gives a run with another trip decision. In all, window and list agree exactly as long as every
  abort names the bucket of its own OK, or one that is expired or empty if that OK is not in the list or has expired
  (`MemoryIsExact`, `FleetTakingBackIsExact`).
- After a removal an LRU holds fewer than its most recently used keys if something had been evicted, until stores close
  the gap (`ExactWithoutGaps`, `EvictedKeyStaysAway`).
- A request may join a lookup that has its answer and only waits for the lock, and is then served a record past its
  lifetime (`OldRecordIsServed`); `TimelyUnlessJoinedLate` shows that there is no other way.
- The re-selection loop of `reserve` does not get on when a worker of the same ID, not eligible, stands before the one it
  drops (`SameIdIsChosenAgain`); `DropProgresses` says exactly when it does. The registry keeps one worker per ID
  (`internal/registry/registry.go:149-160`), so its views never hold two.
- The search for the usage object misses one whose key starts on the closing quote of another such key (`HiddenUsage`);
  `SearchIsComplete` says exactly when it misses none.

## Model

| member | source | states |
|---|---|---|
| `LostWakeups.NoLostWakeup` | internal/gateway/router.go:257-453 | in every run with a fixed eligible set, admitting breakers and reports not above local counts, each state with waiters has free slots at most the waiters still owing a routing plus the credit, if and only if neither losing event happens |
| `LostWakeups.NextCovered` | internal/resilience/queue.go:231-371 | one step of any kind keeps that cover if and only if it is not one of the two losing events |
| `LostWakeups.NobodySleepsBesideAFreeSlot` | internal/resilience/queue.go:298-319 | before a losing event, no slot is free while every waiter sleeps |
| `LostWakeups.CoveredWhileNothingIsLost` | internal/gateway/router.go:257-453 | up to the first losing event every state of a steady run covers its free slots |
| `LostWakeupRuns.CancelledRoutingStrands` | internal/gateway/resilience_queue.go:149-163 | a complete run in which a cancelled waiter parks without having looked for a slot and a free slot stays beside a sleeping waiter |
| `LostWakeupRuns.EmptiedQueueStrands` | internal/gateway/router.go:362-382 | a complete run in which the busy check and the Enqueue straddle the departure of the last waiter, with the same end |
| `SlotsSafety.RunsAreSafe` | internal/gateway/router.go:172-313 | in every run: channels agree with what each goroutine does, every slot is in exactly one place, in-flight counts are exact and within each worker’s limit, hand-offs follow arrival order |
| `SlotsSafety.NextBase` | internal/resilience/queue.go:111-119 | every step keeps the queue invariant and the agreement between waiters, channels and goroutines; at most one grant is ever pending |
| `SlotsSafety.NextLocated` | internal/resilience/queue.go:298-319 | every step keeps each slot in exactly one place: running, travelling in one waiter’s channel, or with the waiter that just took it |
| `SlotsSafety.NextAccounted` | internal/gateway/router.go:245-313 | every step, double release and refused hand-off included, keeps the in-flight count of a worker equal to its live slots and at most its fixed limit |
| `SlotsSafety.NextFifo` | internal/resilience/queue.go:298-319 | every step keeps the list of hand-offs in enqueue order and ahead of everyone still waiting |
| `SlotsSafety.NobodyJoinsAfterClose` | internal/resilience/queue.go:458-464 | in every run, once the queue is closed no waiter is ever accepted again |
| `AdmissionQueue.JoinKeeps` | internal/resilience/queue.go:187-229 | an admitted waiter keeps the line sound: order, tenant counts, depth and share |
| `AdmissionQueue.HandOverKeeps` | internal/resilience/queue.go:298-319 | a hand-off, or the credit it becomes while the head routes, keeps the line sound |
| `AdmissionQueue.WakeKeeps` | internal/resilience/queue.go:321-342 | waking keeps the line sound |
| `AdmissionQueue.ParkKeeps` | internal/resilience/queue.go:355-371 | parking after a Reroute was read keeps the line sound |
| `AdmissionQueue.LeaveKeeps` | internal/resilience/queue.go:373-404 | leaving in either way keeps the line sound |
| `AdmissionQueue.ReceiveKeeps` | internal/resilience/queue.go:421-436 | reading the channel keeps the line sound |
| `AdmissionQueue.FlushKeeps` | internal/resilience/queue.go:438-456 | a flush keeps the queue sound |
| `AdmissionQueue.SettleKeeps` | internal/resilience/queue.go:261-286 | settling re-establishes that credit is positive only while the head routes |
| `AdmissionQueue.RouseRouses` | internal/resilience/queue.go:261-286 | which waiters are told: idle ones from the front, in order, exactly as many as the units spent; what is left over means nobody is idle |
| `AdmissionQueue.UnlinkKeeps` | internal/resilience/queue.go:231-259 | taking one waiter out keeps everyone else in order and the tenant counts exact |
| `AdmissionQueue.TellTells` | internal/resilience/queue.go:438-456 | a flush puts exactly one notice into the channel of each waiter and touches no other channel |
| `AdmissionQueue.BankKeeps` | internal/resilience/queue.go:298-319 | a unit of credit banked and settled keeps the line sound and everyone in place |
| `AdmissionQueue.DepartedKeeps` | internal/resilience/queue.go:231-259 | a departure, with or without its wake-up given back, keeps the line sound and the others in order |
| `AdmissionQueue.RouseReaches` | internal/resilience/queue.go:261-286 | an idle waiter is told exactly when fewer idle waiters than units stand before it |
| `Credit.CreditIsSpent` | internal/resilience/queue.go:111-119 | in every run, credit never stays beside an idle waiter if and only if nobody is accepted while credit is banked |
| `Credit.NextSpends` | internal/resilience/queue.go:212-286 | one step of any kind keeps credit spent if and only if it does not accept a waiter beside banked credit |
| `Credit.CreditBesideASleeper` | internal/resilience/queue.go:212-229 | a complete run that ends with credit beside a sleeping waiter |
| `Credit.SpentInOrder` | internal/resilience/queue.go:261-286 | no unit passes an idle waiter: whoever is told, everyone before is routing |
| `Credit.SettleOvertakes` | internal/resilience/queue.go:111-119 | settling reaches a waiter that arrived after one still routing if and only if an idle waiter stands behind a routing one and the credit exceeds the idle waiters before it |
| `Credit.HandOverOvertakes` | internal/resilience/queue.go:298-319 | a release beside a routing head reaches a later waiter if and only if one is idle |
| `Credit.LaterWaiterIsTold` | internal/resilience/queue.go:298-319 | a complete run whose last step spends a unit on a later waiter while the head is still routing |
| `QueueSet.FindIdle` | internal/resilience/queue.go:265-286 | the first waiter that is not routing |
| `QueueSet.SettleLine` | internal/resilience/queue.go:265-286 | the loop of settle equals settling on the line as a whole |
| `QueueSet.RouseLine` | internal/resilience/queue.go:324-342 | the loop of Wake equals rousing on the line as a whole |
| `QueueSet.ParkLine` | internal/resilience/queue.go:359-371 | the body of Park equals parking on the line as a whole |
| `QueueSet.LeaveLine` | internal/resilience/queue.go:234-259 | the body of leaveLocked equals a departure on the line as a whole |
| `QueueSet.FlushLine` | internal/resilience/queue.go:440-456 | the loop of Flush tells every waiter of the line |
| `QueueSet.Queues.Refuse` | internal/resilience/queue.go:187-208 | the refusal in the order draining, no queue, full, tenant share |
| `QueueSet.Queues.Enqueue` | internal/resilience/queue.go:212-229 | a refusal changes nothing; an admission appends the waiter; other models are untouched |
| `QueueSet.Queues.Handoff` | internal/resilience/queue.go:303-319 | what a hand-off does to its model, and nothing to the others |
| `QueueSet.Queues.WakeUp` | internal/resilience/queue.go:324-342 | what a wake does to its model, with the number told |
| `QueueSet.Queues.ParkWaiter` | internal/resilience/queue.go:359-371 | what Park does, with its answer |
| `QueueSet.Queues.LeaveQueue` | internal/resilience/queue.go:375-404 | what Leave and Done do, with the grant that was pending |
| `QueueSet.Queues.TakePending` | internal/resilience/queue.go:382-404 | reading the channel of a waiter that has left empties it |
| `QueueSet.Queues.FlushModel` | internal/resilience/queue.go:440-456 | a flush of one model: everyone told, the line empty, the count exact |
| `QueueSet.Queues.FlushAll` | internal/resilience/queue.go:438-456 | a flush of one or every model: exactly the named lines are emptied, each of their waiters told, and the number returned is the number told, whatever the order of the models |
| `Router.RouterState.Overlay` | internal/gateway/router.go:245-255 | each worker’s load is the larger of the reported and the local count |
| `Router.RouterState.Select` | internal/gateway/router.go:350-430 | the re-selection loop ends; the worker found is open (offered, admitted by its breaker, below its limit) and no open worker is less loaded; when none is found no worker is open, and the counts that decide whether to queue are exact: the eligible and the full are both the offered workers that are full |
| `Router.RouterState.Reserve` | internal/gateway/router.go:350-453 | a routing takes one slot of a least loaded open worker, or leaves the counts alone because none is open, with the exact counts |
| `Router.RouterState.ReleaseSlot` | internal/gateway/router.go:257-313 | a slot of a worker that is still in the view under the same registration, offered and admitted by its breaker goes to the head waiter and the count stays, or is banked as credit and freed while the head routes; otherwise it is freed, and a wake-up is asked for exactly when waiters exist |
| `Router.ReserveIsAStep` | internal/gateway/router.go:384-453 | selection finds room, or finds everything full, exactly when the slot machine says so |
| `Router.TakeThenGiveBack` | internal/gateway/router.go:257-276 | a slot taken and given back leaves the counts as they were; giving back never counts below zero, touches no other worker and leaves no empty entry |
| `Router.RouterState.Choose` | internal/gateway/router.go:393-397 | the scheduler’s choice is a least loaded candidate, or there is none, with exact counts |
| `Router.DropProgresses` | internal/gateway/router.go:432-438 | after a refused choice the re-selection gets on, with one eligible worker less, exactly when the first worker of the chosen one’s ID is eligible |
| `Router.SameIdIsChosenAgain` | internal/gateway/router.go:432-438 | with two workers of one ID, the first not eligible, the mark falls on the first, nothing changes and the second is the only candidate again |
| `Scheduler.Insert` | internal/scheduler/scheduler.go:77-104 | insertion keeps the candidates in ID order and loses none |
| `Scheduler.Eligible` | internal/scheduler/scheduler.go:74-104 | the candidates are exactly the offered workers with room, in ID order, and the three counts are exact |
| `Scheduler.Rotor.Next` | internal/scheduler/scheduler.go:163-185 | the binary search finds the first ID after the last one handed out for the model, wrapping round, and remembers it for that model alone |
| `Scheduler.ChooseLeast` | internal/scheduler/scheduler.go:244-259 | the choice attains the minimum load among the candidates and takes turns among those tied for it |
| `Scheduler.ByteOrderIsStrict` | internal/scheduler/scheduler.go:163-185 | the order of IDs is a strict total order |
| `Scheduler.LeastLoad` | internal/scheduler/scheduler.go:245-250 | the loop finds the minimum load |
| `Scheduler.TiedFor` | internal/scheduler/scheduler.go:251-256 | the loop keeps exactly the workers with that load, in order |
| `Scheduler.RotorRotates` | internal/scheduler/scheduler.go:163-185 | in every sequence of calls for any models, the answers for one model go round what that model is offered, from the worker handed out last |
| `Scheduler.RotorIsFair` | internal/scheduler/scheduler.go:163-185 | in every sequence of calls, between two turns of a worker that is always on offer for its model nobody gets two turns |
| `Scheduler.RotorTakesEveryone` | internal/scheduler/scheduler.go:163-185 | while a model is offered the same n workers, n turns take each exactly once, whatever other models do in between |
| `Rotation.NobodyTwice` | internal/scheduler/scheduler.go:163-185 | between two consecutive choices of a worker that is always on offer nobody is chosen twice, whatever joins or leaves |
| `Rotation.OneRoundTakesEveryone` | internal/scheduler/scheduler.go:163-185 | over a fixed set of n workers with distinct IDs, n consecutive choices take each exactly once |
| `Rotation.RotationAhead` | internal/scheduler/scheduler.go:163-185 | while a worker is on offer and not chosen, the choices move towards it |
| `Rotation.GoesRound` | internal/scheduler/scheduler.go:163-185 | over a fixed set the choices follow the ID order round |
| `RateModel.Purge` | internal/ratelimit/model.go:139-145 | the loop removes exactly the expired leases |
| `RateModel.WorstIsWaits` | internal/ratelimit/model.go:124-154 | the refusal found by scanning the checks twice is the longest wait, ties in the order requests, tokens, concurrency, model |
| `RateModel.ChargeAllIsEach` | internal/ratelimit/model.go:159-167 | charging the list of checks charges each active quota once |
| `RateModel.Model.AllowCall` | internal/ratelimit/model.go:98-175 | the whole call equals the specification |
| `RateModel.Model.ReleaseCall` | internal/ratelimit/model.go:177-183 | a release removes the lease and says whether it was held |
| `RateModel.Model.RenewCall` | internal/ratelimit/model.go:185-195 | a renewal extends a held lease that has not expired, and revives nothing |
| `RateTheorems.AllOrNothing` | internal/ratelimit/model.go:98-175 | a refused call charges no bucket; an admitted one charges each active quota its full need, which was there |
| `RateTheorems.RateBound` | internal/ratelimit/model.go:71-89 | over any run of calls and any clock, what a bucket of fixed quota is charged is at most one full bucket plus the quota times the span of its stamps |
| `RateTheorems.ChargesArePaidFor` | internal/ratelimit/model.go:159-167 | from an existing bucket nothing is charged that was not there or refilled |
| `RateTheorems.LeaseBound` | internal/ratelimit/model.go:138-173 | with a fixed limit a tenant never stores more leases than it, over any run |
| `RateTheorems.HintIsExact` | internal/ratelimit/model.go:91-96 | a bucket admits after its wait if and only if its stamp is not ahead of the clock, and never one millisecond earlier |
| `RateTheorems.HintSuffices` | internal/ratelimit/model.go:124-157 | when no stamp is ahead of the clock, every bucket admits the refused request once the hint has passed |
| `RateTheorems.HintIsTight` | internal/ratelimit/model.go:124-157 | one millisecond before the hint the reported bucket still refuses, for every refusal other than the concurrency limit, whose hint is a constant |
| `RateTheorems.SolventStays` | internal/ratelimit/model.go:98-175 | no call brings a level below zero |
| `RateTheorems.TenantIsolation` | internal/ratelimit/model.go:98-195 | without model caps a tenant is told the same whatever calls of other tenants are interleaved |
| `RateTheorems.CallIsPaidFor` | internal/ratelimit/model.go:71-175 | one call of any kind charges a bucket no more than it held and gained |
| `RateTheorems.OneCallKeepsLeases` | internal/ratelimit/model.go:138-195 | one call of any kind keeps a tenant’s leases within its limit |
| `RateTheorems.HintCoversEveryWait` | internal/ratelimit/model.go:124-157 | the hint is at least the wait of each of the three buckets |
| `RateTheorems.AdmitsLater` | internal/ratelimit/model.go:71-96 | a bucket whose stamp is not ahead of the clock admits after any delay of at least its wait |
| `RateTheorems.OthersAreInvisible` | internal/ratelimit/model.go:98-195 | a call of another tenant without a model cap changes nothing a tenant can see |
| `RateTheorems.OwnCallsAgree` | internal/ratelimit/model.go:98-195 | two states a tenant cannot tell apart answer its call alike and stay so |
| `RateKeys.EscapeKeyPart` | internal/ratelimit/keys.go:35-46 | the loop computes the escaped name |
| `RateKeys.EscapeRoundTrip` | internal/ratelimit/keys.go:33-46 | escaping can be undone, so distinct names stay distinct |
| `RateKeys.EscapeIsPlain` | internal/ratelimit/keys.go:33-46 | an escaped name holds no brace and only printable bytes |
| `RateKeys.KeysAreDistinct` | internal/ratelimit/keys.go:15-31 | two keys are equal only for the same kind and the same name |
| `RateKeys.PlaceholderIsUnused` | internal/ratelimit/keys.go:20-23 | the placeholder is the key of the empty model name and of nothing else |
| `RateKeys.TenantHashTag` | internal/ratelimit/keys.go:8-18 | the hash tag of a tenant key is exactly the escaped tenant |
| `Doubles.QuotExact` | internal/ratelimit/script.go:39-42 | floor of a rounded quotient is the integer quotient, below 2^53 |
| `Doubles.ModExact` | internal/ratelimit/script.go:39-42 | the remainder that Lua computes from the rounded quotient is exact, below 2^53 |
| `RateScript.CeilDivExact` | internal/ratelimit/script.go:39-42 | the script’s rounded-up division is the model’s |
| `RateScript.ScriptNowExact` | internal/ratelimit/script.go:24-31 | seconds and microseconds give the exact millisecond |
| `RateScript.ExpiredIsFull` | internal/ratelimit/script.go:96-99 | a bucket whose key has expired was full, so reading it as missing changes no answer |
| `RateScript.Refill` | internal/ratelimit/script.go:55-62 | the refill of a stored bucket on doubles is the exact refill |
| `RateScript.Waiting` | internal/ratelimit/script.go:63-66 | the wait of a check on doubles is the exact wait |
| `RateScript.Server.Check` | internal/ratelimit/script.go:49-68 | level, need, wait and stamp of a quota are the model’s, expiry included |
| `RateScript.Server.Decide` | internal/ratelimit/script.go:75-94 | the first half of the script finds the model’s refusal |
| `RateScript.Server.Acquire` | internal/ratelimit/script.go:16-108 | the acquire script gives the model’s answer and leaves the stores matching |
| `RateScript.Server.RenewLeases` | internal/ratelimit/script.go:110-136 | the renew script’s count is the model’s and the stores stay matching |
| `RateScript.Server.ReleaseLease` | internal/ratelimit/script.go:138-139 | the stores stay matching; a release is reported exactly when the model reports it and the tenant’s set has not expired |
| `RateScript.ReleaseReplyDiffers` | internal/ratelimit/script.go:103-139 | two calls from empty stores, a lease taken and released long after, to which the scripts reply 0 and the model 1 |
| `RateScript.TimePasses` | internal/ratelimit/script.go:96-106 | waiting, with keys expiring, keeps the stores matching |
| `RateScript.Server.Serve` | internal/ratelimit/script.go:10-139 | on a clock that does not go back, any sequence of calls gets exactly the model’s answers, except that a release is reported only while the tenant’s set lives |
| `RateScript.PurgeMatches` | internal/ratelimit/script.go:84-87 | removing the expired members of a set matches removing the expired leases, and the count agrees |
| `RateScript.LendMatches` | internal/ratelimit/script.go:103-106 | adding a member and extending the set matches storing the lease |
| `RateScript.RenewEachIsMap` | internal/ratelimit/script.go:110-136 | renewing one lease after another is renewing the listed leases of that tenant, and touches no other |
| `RateScript.RefusedMatches` | internal/ratelimit/script.go:92-94 | a refusal of the script is the model’s, with matching stores |
| `RateScript.AdmittedMatches` | internal/ratelimit/script.go:96-108 | an admission of the script is the model’s, with matching stores |
| `RateScript.Server.Store` | internal/ratelimit/script.go:96-102 | storing a charged bucket with its expiry matches the model’s charge |
| `RateScript.Server.CheckLeases` | internal/ratelimit/script.go:84-87 | the concurrency check counts the leases that have not expired |
| `RateScript.RepliesAreModels` | internal/ratelimit/script.go:16-139 | in every run the scripts’ replies are the model’s, if and only if the call is not a release of a lease the model knows after the tenant’s set has expired |
| `RateScript.RenewMatches` | internal/ratelimit/script.go:110-136 | renewing keeps the stores matching and counts what the model counts |
| `RateScript.ExpiryAtAcquire` | internal/ratelimit/script.go:84-106 | after an acquire each set expires two lease lifetimes after the last lease taken or renewed, and each lease the model knows has a set |
| `RateScript.ExpiryAtRenew` | internal/ratelimit/script.go:110-136 | the same after a renewal |
| `RateScript.ExpiryAtRelease` | internal/ratelimit/script.go:138-139 | the same after a release |
| `RateStore.WriteIsLocal` | internal/ratelimit/keys.go:8-31 | in one keyspace of strings, writing or removing a spelt key changes that entry of the stores and no other |
| `RateStore.BucketWrite` | internal/ratelimit/script.go:95-102 | storing a bucket under its spelt key is the model’s update of that bucket |
| `RateStore.SetWrite` | internal/ratelimit/script.go:103-106 | storing a tenant’s lease set under its spelt key is the update of that set |
| `RateStore.SetRemoval` | internal/ratelimit/script.go:138-139 | so is its removal |
| `RateStore.HoldsOne` | internal/ratelimit/keys.go:8-31 | a keyspace determines the buckets and lease sets it holds |
| `RateStore.CallStaysInItsKeys` | internal/ratelimit/redis.go:192-200 | for every call of a script the keyspace after it agrees with the one before on every key that the call does not name |
| `RateStore.TenantsShareNoKey` | internal/ratelimit/keys.go:15-18 | calls of two tenants have no key in common but a model’s |
| `Window.SlidingWindow.constructor` | internal/resilience/doc.go:72-78 | the ring has a place for every whole second of the window, at least one |
| `Window.SlidingWindow.Count` | internal/resilience/doc.go:84-100 | adding to the ring equals the specification; an event outside the window changes nothing |
| `Window.SlidingWindow.Total` | internal/resilience/doc.go:102-112 | the loop computes both sums |
| `Window.SlidingWindow.Reset` | internal/resilience/doc.go:114-119 | a reset ring is a new ring |
| `Window.AddTracks` | internal/resilience/doc.go:84-100 | adding keeps the ring in agreement with the plain history of the window |
| `Window.TracksLater` | internal/resilience/doc.go:64-70 | time passing only takes buckets out of the window |
| `Window.SumIsCount` | internal/resilience/doc.go:102-112 | the ring’s sum is the plain count over the last n buckets |
| `Window.SlotsApart` | internal/resilience/doc.go:82 | two buckets of one window never share a place of the ring |
| `Window.AddOutside` | internal/resilience/doc.go:84-100 | an event older than the window changes nothing |
| `Budget.RetriesStayWithinBudget` | internal/resilience/budget.go:83-96 | in every run on a clock that does not go back, a retry is granted exactly when the unrefunded retries of its window are below the limit, and they stay within it, that one included |
| `Budget.GrantedExactly` | internal/resilience/budget.go:85-96 | the decision read off the ring is the decision on the plain history |
| `Budget.RefundOnce` | internal/resilience/budget.go:98-114 | a refund returns exactly one retry of the window, if it is still there, and only once |
| `Budget.RunsFollow` | internal/resilience/budget.go:58-114 | every window agrees with the plain history of its key, the shared one included |
| `Budget.RetryBudget.WindowOf` | internal/resilience/budget.go:57-68 | which window a model uses: its own or, beyond the cap, the shared one |
| `Budget.RetryBudget.Note` | internal/resilience/budget.go:70-77 | a first attempt is counted in the model’s window |
| `Budget.RetryBudget.Take` | internal/resilience/budget.go:83-96 | a reservation equals the specification; a denied one consumes nothing |
| `Budget.RetryBudget.GiveBackRetry` | internal/resilience/budget.go:98-114 | a refund equals the specification |
| `Budget.NoteFirstFollows` | internal/resilience/budget.go:70-77 | a first attempt keeps windows and history in agreement |
| `Budget.ReserveFollows` | internal/resilience/budget.go:83-96 | a reservation, granted or not, keeps windows and history in agreement |
| `Budget.RefundFollows` | internal/resilience/budget.go:98-114 | a refund keeps windows and history in agreement |
| `Budget.SumIsHistory` | internal/resilience/budget.go:85-96 | the two sums of a window are the first attempts and the unrefunded retries of its history |
| `Budget.GrantIsWithinBudget` | internal/resilience/budget.go:79-96 | a grant adds one retry and stays within the limit |
| `Breaker.Normalize` | internal/resilience/breakers.go:90-114 | settings out of range are repaired, others are left alone |
| `Breaker.DropLost` | internal/resilience/breaker.go:154-161 | the loop releases exactly the tickets older than the backstop |
| `Breaker.BaseCoolDownLoop` | internal/resilience/breaker.go:207-217 | the loop computes the cool-down doubled level times, capped, without exceeding the cap on the way |
| `Breaker.DoubledIsPower` | internal/resilience/breaker.go:207-217 | doubling n times is multiplying by the n-th power of two |
| `Breaker.MaxLevelLoop` | internal/resilience/breaker.go:219-226 | the search ends at the least level whose cool-down is the cap |
| `Breaker.CappedFromMaxLevel` | internal/resilience/breaker.go:219-226 | a cool-down is the cap exactly from that level on |
| `Breaker.MaxLevelIs` | internal/resilience/breaker.go:219-226 | the level found is the least whose cool-down is the cap |
| `Breaker.JitteredFits` | internal/resilience/breaker.go:243-244 | every drawn cool-down is within a fifth of its level’s base, at least a nanosecond and at most the cap |
| `BreakerProtocol.StepInv` | internal/resilience/breaker.go:142-263 | every operation keeps ticket numbers unique, successes below the number needed, probes within their limit and the level within range |
| `BreakerProtocol.LeavesOpenOnTime` | internal/resilience/breaker.go:144-163 | an open period ends exactly when the cap is relaxed or something looks at the breaker after its cool-down; until then nothing changes the breaker |
| `BreakerProtocol.StaleTicketIsIgnored` | internal/resilience/breakers.go:286-395 | a ticket of another open period changes nothing beyond the lazy transition |
| `BreakerProtocol.ClosesOnlyByProbing` | internal/resilience/breakers.go:363-389 | only the last accepted probe success closes a breaker, cap relaxation aside |
| `BreakerProtocol.ClosingNeedsDistinctSuccesses` | internal/resilience/breakers.go:363-389 | in every run of a breaker, closing by probing needs the required successes from distinct tickets of that open period |
| `BreakerProtocol.ProbingStep` | internal/resilience/breaker.go:142-263 | every operation keeps the count of successes equal to the probe tickets that passed in this open period |
| `BreakerProtocol.PassedAreSuccesses` | internal/resilience/breakers.go:363-389 | in every run each counted success is the success of a ticket of that open period |
| `BreakerProtocol.PeriodLasts` | internal/resilience/breaker.go:228-252 | in every run a period opened at some level lasts at least 0.8 of that level’s cool-down unless the cap is relaxed |
| `BreakerProtocol.PeriodEnds` | internal/resilience/breaker.go:144-163 | and it is over when something looks 1.2 of that cool-down, or the longest one, later |
| `BreakerProtocol.FailedProbesRaiseLevel` | internal/resilience/breaker.go:228-237 | in every run, while a breaker does not close, k new open periods raise the level by k, up to that of the longest cool-down |
| `BreakerProtocol.RetripResumesLevel` | internal/resilience/breaker.go:228-237 | in every run, a breaker that trips again resumes at the level it had, unless it stayed closed for the longest cool-down |
| `BreakerHistory.TripRefinesHistory` | internal/resilience/breakers.go:397-417 | in every run of a breaker on a clock that does not go back, up to the first abort that does not fit the list, a closed breaker opens exactly when the outcome counted now makes the rule hold on the plain list of outcomes since it closed and the cap has room |
| `BreakerHistory.TripIsRule` | internal/resilience/breaker.go:170-205 | the decision from the streak ring and the window is the rule on the list |
| `BreakerHistory.OldestHeld` | internal/resilience/breaker.go:190-197 | the place that is overwritten next holds the oldest of the last N faults |
| `BreakerHistory.CountedRepresents` | internal/resilience/breaker.go:171-189 | counting an outcome keeps ring and window in agreement with the list; an unlisted server error neither extends nor breaks the streak |
| `BreakerHistory.UncountTracks` | internal/resilience/breakers.go:334-361 | taking an OK off the list leaves the window right if and only if the time named lies in the OK’s own bucket, or that bucket has expired and the one named is expired or empty |
| `BreakerHistory.AbortNamesAnotherBucket` | internal/resilience/breakers.go:334-361 | a run of a breaker whose decision differs from the list’s: the OK was recorded as the second turned, its time read just before, so it stays counted and the breaker does not trip |
| `BreakerHistory.StreakFault` | internal/resilience/breaker.go:171-189 | a fault is appended to the streak that the ring holds |
| `BreakerHistory.AbortRepresents` | internal/resilience/breakers.go:334-361 | whatever attempt aborts and whatever time it names, breaker and list stay in agreement if and only if the abort fits: it names the bucket of the attempt’s own OK, or, if that OK is not in the list or has expired, a bucket that is expired or empty |
| `BreakerHistory.OpensExactlyByRule` | internal/resilience/breakers.go:397-417 | a closed breaker in agreement with its list opens exactly by the rule on the list, unless the operation is an abort that does not fit |
| `BreakerHistory.StepRepresents` | internal/resilience/breakers.go:245-417 | every operation that ends in the closed state, other than an abort that does not fit, leaves breaker and list in agreement |
| `BreakerHistory.RunsRepresent` | internal/resilience/breakers.go:245-417 | in every run on a clock that does not go back, up to the first abort that does not fit, a closed breaker agrees with its list |
| `BreakerHistory.OkIsHeld` | internal/resilience/breakers.go:334-361 | when an abort finds the breaker closed in its ticket’s epoch, an OK of the same ticket that was recorded on this very breaker was counted and is still in the list |
| `BreakerHistory.TakingBackIsExact` | internal/resilience/breakers.go:334-361 | in every run on a clock that does not go back, and after aborts that fitted, any abort leaves breaker and list in agreement if and only if it fits; for one whose OK was recorded on this breaker that means naming its bucket, unless the bucket has expired |
| `BreakerHistory.TakenOffTracks` | internal/resilience/breakers.go:359-360 | taking one off a bucket when the list stays the same leaves the window right if and only if that bucket is expired or empty |
| `BreakerHistory.MemoryIsExact` | internal/resilience/breakers.go:334-361 | in every run on a clock that does not go back, a breaker stands for its list throughout if and only if every abort fits |
| `BreakerHistory.NamedOkMatches` | internal/resilience/breakers.go:334-361 | an abort that takes back an OK recorded on this breaker and names its bucket fits |
| `Breakers.EjectionCapHolds` | internal/resilience/breakers.go:182-223 | after every operation of every run each model is within its cap; with a fraction of at most one half every model with an eligible worker has a closed one |
| `Breakers.EnforcementIsExact` | internal/resilience/breakers.go:182-212 | enforcement closes exactly the excess of each model, every survivor ejected before every victim, and touches nothing else |
| `Breakers.SparedSize` | internal/resilience/breakers.go:182-212 | as many ejections survive as the cap allows |
| `Breakers.FindVictim` | internal/resilience/breakers.go:193-203 | the pass counts the ejected workers and finds the one ejected last, ties by the larger ID |
| `Breakers.RelaxModel` | internal/resilience/breakers.go:190-211 | closing the latest ejection until within the limit ends with the longest-standing ones |
| `Breakers.EnforceCap` | internal/resilience/breakers.go:182-212 | the loop over the models, in any order, is the whole enforcement |
| `Breakers.RecountEligible` | internal/resilience/breakers.go:214-223 | the loop counts the eligible workers per model |
| `Breakers.CountOpen` | internal/resilience/breakers.go:433-444 | the loop counts the ejected eligible workers of a model |
| `Breakers.MaxOpenBounds` | internal/resilience/breakers.go:419-429 | the cap lies between none and all, and below all for a fraction of at most one half |
| `Breakers.OnBreakerKeepsCap` | internal/resilience/breakers.go:397-444 | an operation on one breaker keeps every model within its cap |
| `Breakers.BreakerSet.SyncMembers` | internal/resilience/breakers.go:140-163 | a registry view is taken over and the cap enforced |
| `Breakers.BreakerSet.PruneKeys` | internal/resilience/breakers.go:165-180 | breakers of other workers are dropped and the cap enforced |
| `Breakers.BreakerSet.RoomToOpen` | internal/resilience/breakers.go:431-444 | room for one more ejection; an ineligible worker takes none |
| `Breakers.BreakerSet.Acquire` | internal/resilience/breakers.go:245-272 | a ticket is issued as the breaker’s state allows; an unknown worker gets a plain one |
| `Breakers.BreakerSet.Release` | internal/resilience/breakers.go:274-284 | a probe ticket is returned without a verdict; any other ticket changes nothing |
| `Breakers.BreakerSet.Record` | internal/resilience/breakers.go:286-297 | a verdict acts on the breaker of its ticket alone, with the cap’s own answer to a trip; an invalid ticket changes nothing |
| `Breakers.BreakerSet.RecordLate` | internal/resilience/breakers.go:299-332 | a fault found after the success was recorded acts on the breaker of its ticket alone; an invalid ticket changes nothing |
| `Breakers.BreakerSet.RecordAbort` | internal/resilience/breakers.go:334-361 | an OK is taken back and a fault counted on the breaker of its ticket alone; an invalid ticket changes nothing |
| `Breakers.BreakerSet.Admissible` | internal/resilience/breakers.go:232-243 | closed, or half-open with a free probe, or unknown |
| `Breakers.LatestFirst` | internal/resilience/breakers.go:182-212 | closing the latest ejection first does not change which ones survive |
| `Breakers.SparedAreOlder` | internal/resilience/breakers.go:182-212 | every survivor was ejected before every victim |
| `Breakers.EnforcedKeepsCap` | internal/resilience/breakers.go:182-212 | after enforcement each model is within its cap, from any state |
| `Breakers.FleetStepKeepsCap` | internal/resilience/breakers.go:140-444 | every operation, registry views and pruning included, keeps each model within its cap |
| `Breakers.BreakerSet.Settle` | internal/resilience/breakers.go:182-223 | recount and enforcement together |
| `BreakerFleet.FleetProjects` | internal/resilience/breakers.go:140-212 | in every run of the set the breaker of a key is the lone breaker after that key’s operations since it was added, with the cap’s own answer to each trip, and relaxed exactly where the enforcement closes it |
| `BreakerFleet.StepProjects` | internal/resilience/breakers.go:140-212 | one operation of the set acts on a breaker that survives it exactly as its projection |
| `BreakerFleet.KnownIsKeptOrNew` | internal/resilience/breakers.go:142-163 | a breaker that is known without having survived is new |
| `BreakerFleet.FleetHoldsOpen` | internal/resilience/breakers.go:140-180 | in every run of the set, before its cool-down is over and unless relaxed, a key’s breaker stays in its open period while it is known, if and only if it is not dropped and added again |
| `BreakerFleet.FleetPeriodLasts` | internal/resilience/breaker.go:228-252 | in every run of the set a period opened at some level lasts at least 0.8 of that level’s cool-down, unless the breaker is dropped or the cap relaxed |
| `BreakerFleet.FleetFailedProbesRaiseLevel` | internal/resilience/breaker.go:228-237 | the same growth of the level for a key that is kept and does not close |
| `BreakerFleet.FleetClosingNeedsDistinctSuccesses` | internal/resilience/breakers.go:363-389 | in every run of the set a breaker that closes without being relaxed has had the required successes from distinct tickets of that open period |
| `BreakerFleet.FleetStaleTicket` | internal/resilience/breakers.go:299-395 | in every run of the set a ticket does nothing beyond the lazy transition once the breaker has opened since, as long as the breaker is not dropped in between |
| `BreakerFleet.FleetTripRefinesHistory` | internal/resilience/breakers.go:397-444 | in every run of the set on a clock that does not go back, up to the first abort on the key that does not fit, the key’s closed breaker opens exactly when the outcome counted now makes the rule hold on its list and the model’s ejections are below the cap |
| `BreakerFleet.ReAddForgets` | internal/resilience/breakers.go:140-163 | after every run, a key that one view drops and the next adds again has a new, closed breaker |
| `BreakerFleet.ReAddCountsOldTicket` | internal/resilience/breakers.go:142-163 | and a plain ticket of epoch 0 from before counts its fault there |
| `BreakerFleet.ReAddRun` | internal/resilience/breakers.go:142-163 | a complete run in which an ejected worker is dropped, added again and closed before its cool-down is over |
| `BreakerAborts.FleetTakingBackIsExact` | internal/resilience/breakers.go:334-361 | in every run of the set, after aborts on the key that fitted, its closed breaker and its list stay together through an abort if and only if it fits |
| `BreakerAborts.FleetOkIsHeld` | internal/resilience/breakers.go:356-358 | when an abort finds the key’s breaker closed in its ticket’s epoch, the attempt’s OK is in the list if and only if this breaker counted it and has been kept since; with a ticket of epoch 0 or from this breaker, if and only if the key was known at the OK and has been kept since |
| `BreakerAborts.ListedIsCounted` | internal/resilience/breakers.go:363-395 | an OK in a key’s list was counted by the key’s present breaker |
| `BreakerAborts.IssuedIsCounted` | internal/resilience/breakers.go:252-258 | an OK of the breaker’s present epoch, recorded with a ticket of its own on a breaker that has been kept since, was counted |
| `BreakerAborts.NamesFits` | internal/resilience/breakers.go:334-361 | an abort fits when its OK was recorded while the key was known, the key has been kept since, and it names the OK’s bucket or the bucket has expired |
| `BreakerAborts.FleetTripByOwnOks` | internal/resilience/breakers.go:334-444 | so in every run of the set with only such aborts the key’s closed breaker opens exactly by the rule on its list and the cap |
| `BreakerAborts.AbortOfUnseenOk` | internal/resilience/breakers.go:252-254 | a complete run: an OK recorded before the worker has a breaker, whose abort takes out another attempt’s OK and trips the breaker although the rule does not hold on the list |
| `BreakerAborts.AbortAfterReAdd` | internal/resilience/breakers.go:142-163 | a complete run with the same end, where the breaker that counted the OK was dropped and added again |
| `Scanner.CountKeys` | internal/gateway/tokens.go:76-96 | the search loop, each round resuming after the last key |
| `Scanner.GreedyIsCount` | internal/gateway/tokens.go:76-96 | where no counted key starts on another’s closing quote, the search counts every key followed by a non-quote byte |
| `Scanner.GreedyMisses` | internal/gateway/tokens.go:76-96 | anywhere else it misses one |
| `Scanner.OverlapInOneByte` | internal/gateway/tokens.go:26-30 | two keys overlap in one byte at most |
| `Scanner.PieceCount` | internal/gateway/tokens.go:55-65 | one more piece adds the keys completed from the carry and those inside it |
| `Scanner.MemoryIsOfBody` | internal/gateway/tokens.go:40-74 | whatever the pieces, the memory holds the body’s last 2048 and last 11 bytes |
| `Scanner.CountIsSplitIndependent` | internal/gateway/tokens.go:40-96 | every split of a body counts its content keys correctly if and only if no counted key starts on another’s closing quote |
| `Scanner.OverlapDependsOnReads` | internal/gateway/tokens.go:55-65 | bytes that count one key in one piece and two in two pieces |
| `Scanner.ResultIsOfBody` | internal/gateway/tokens.go:98-116 | however a body arrives the answer is the body’s own, if and only if the last bytes hold a usage object, or chunks are not asked for, or no counted key overlaps another |
| `Scanner.CopyInto` | internal/gateway/tokens.go:59-73 | a copy that stops at the end of the buffer |
| `Scanner.TokenScanner.FeedPiece` | internal/gateway/tokens.go:39-74 | a piece is fed as specified, through the fixed buffers |
| `Scanner.CountIsOfBody` | internal/gateway/tokens.go:40-96 | without overlapping keys every split counts the keys of the body |
| `Scanner.FeedTail` | internal/gateway/tokens.go:40-54 | a piece leaves the last 2048 bytes of the longer body |
| `Scanner.FeedCarry` | internal/gateway/tokens.go:66-73 | a piece leaves the last 11 bytes of the longer body |
| `Scanner.TokenScanner.CompleteFromCarry` | internal/gateway/tokens.go:55-65 | the keys that begin in the carry |
| `Scanner.TokenScanner.FeedLast` | internal/gateway/tokens.go:66-73 | the carry is shifted in place to the last 11 bytes |
| `Usage.ReadNumber` | internal/gateway/tokens.go:195-211 | the loop over at most eleven digits reads exactly the plain number, if there is one |
| `Usage.NumberIsNumeral` | internal/gateway/tokens.go:195-211 | a number is read if and only if the text begins with its decimal numeral, without a leading zero, at most ten billion, and then a comma, a brace or a blank |
| `Usage.TooManyDigits` | internal/gateway/tokens.go:197-199 | no text with more than eleven digits begins with such a numeral |
| `Usage.UniqueCount` | internal/gateway/tokens.go:179-212 | the count under a key is found as specified |
| `Usage.CountIsOnly` | internal/gateway/tokens.go:179-212 | a count is accepted if and only if its key stands exactly once in the object and a plain number within the bound follows after a colon |
| `Usage.Balanced` | internal/gateway/tokens.go:152-177 | the loop with brace count, string flag and skipped escapes finds the end of the object |
| `Usage.EndIsFirst` | internal/gateway/tokens.go:152-177 | that end is the shortest piece in which every brace outside strings is closed, and there is none if no piece is |
| `Usage.Search` | internal/gateway/tokens.go:120-138 | the loop finds the one usage object among the keys it comes to, or that there are none or several |
| `Usage.ReadUsage` | internal/gateway/tokens.go:119-150 | the whole reading is the specified one |
| `Usage.UsageIsRead` | internal/gateway/tokens.go:119-150 | counts are read if and only if the search comes to exactly one usage object, it is closed, and each of the two keys stands in it once with a plain number within the bound; and they are those numbers |
| `Usage.SearchIsComplete` | internal/gateway/tokens.go:120-138 | the search comes to every usage object of the text if and only if none hides behind the closing quote of a key it came to |
| `Usage.OneMeansOne` | internal/gateway/tokens.go:98-102 | on such texts exactly one usage object found means exactly one in the text |
| `Usage.HiddenUsage` | internal/gateway/tokens.go:120-138 | a text whose one usage object the search does not come to |
| `Usage.AnswerIsOfBody` | internal/gateway/tokens.go:98-116 | with this reading, however a body arrives the answer is the body’s own, if and only if usage is read from its last bytes, or chunks are not asked for, or no counted key overlaps another |
| `Consumer.CrashAndReplayAreExact` | internal/usage/consumer.go:212-263 | in every run, with crashes, failed commits and transactions that committed unheard at any step, rows and rejects are those of one pass in order and every record below the committed offset is accounted for |
| `Consumer.FinishedIsOnePass` | internal/usage/consumer.go:212-263 | once all is committed the store is that of one pass without a crash |
| `Consumer.NextInv` | internal/usage/consumer.go:212-384 | every step, a crash included, keeps the store a pass in order |
| `Consumer.ReplayBatch` | internal/postgres/usage.go:34-71 | a batch written again over what any pass had stored gives the longer pass |
| `Consumer.KeysStayUnique` | internal/postgres/usage.go:34-71 | one row per event and per request |
| `Consumer.Sort` | internal/usage/consumer.go:214-232 | a batch is sorted into rows, rejects and skips, nothing lost, with the offset to commit |
| `Consumer.InsertOneByOne` | internal/usage/consumer.go:318-333 | only the refused rows are rejected, the others inserted in order |
| `Consumer.Worker.InsertUsage` | internal/postgres/usage.go:34-71 | all rows of a transaction, or none when one is refused |
| `Consumer.Worker.Insert` | internal/usage/consumer.go:300-340 | a batch is written together or row by row, with the same rows |
| `Consumer.Worker.MakeDurable` | internal/usage/consumer.go:212-251 | a batch becomes durable and its four results add up to its size |
| `Consumer.Worker.Process` | internal/usage/consumer.go:212-263 | a batch becomes durable, is counted and then committed |
| `Consumer.ReplayOne` | internal/postgres/usage.go:34-71 | a record already passed leaves the rows alone when it is written again |
| `Consumer.RejectsAgain` | internal/postgres/usage.go:73-93 | rejects recorded again are those of the longer pass |
| `Consumer.RefusedAgain` | internal/usage/consumer.go:318-333 | refused rows recorded again are those of the longer pass |
| `Consumer.InsertedOrRefused` | internal/usage/consumer.go:237-251 | new and refused rows together are at most the rows of the batch |
| `Consumer.UnheardInv` | internal/usage/consumer.go:344-368 | a transaction that committed but was reported as failed, and will be tried again, keeps the store a pass in order |
| `Engine.WorkIsConserved` | internal/mockworker/engine.go:58-136 | in every run: generations within the limit, waiters only when all slots are taken, the queued tokens exact, slots given in arrival order |
| `Engine.StepInv` | internal/mockworker/engine.go:58-136 | every step keeps slots conserved and the order |
| `Engine.AbandonedSlotGoesOn` | internal/mockworker/engine.go:89-101 | a slot granted to a waiter that gave up goes to the next waiter or is free |
| `Engine.FindWaiter` | internal/mockworker/engine.go:128-136 | the loop finds the waiter |
| `Engine.Worker.Enter` | internal/mockworker/engine.go:63-79 | a slot at once, a refusal or a place in the queue |
| `Engine.Worker.PassOn` | internal/mockworker/engine.go:114-126 | a freed slot goes straight to the oldest waiter |
| `Engine.Worker.Leaving` | internal/mockworker/engine.go:89-101 | the cancel path |
| `Engine.Worker.LeaveQueue` | internal/mockworker/engine.go:128-136 | a waiter leaves the queue and its tokens with it |
| `Engine.Worker.Finish` | internal/mockworker/engine.go:103-112 | the first release of a holder gives its slot up; calling it again changes nothing |
| `Engine.AbandonInv` | internal/mockworker/engine.go:89-101 | the cancel path keeps slots, tokens and order |
| `Engine.GoOnInv` | internal/mockworker/engine.go:80-82 | a granted waiter that goes on keeps slots, tokens and order |
| `Throughput.RateIsExactInEveryRun` | internal/mockworker/engine.go:228-270 | in every run on a clock that does not go back, the rate is exactly the tokens of the complete buckets since the one in which the busy period began, at most the window, over their time |
| `Throughput.RecordFollows` | internal/mockworker/engine.go:228-245 | recording keeps the ring in agreement with the plain history |
| `Throughput.RateLoop` | internal/mockworker/engine.go:250-270 | the loop computes the rate |
| `Throughput.RateIsExact` | internal/mockworker/engine.go:250-270 | for a ring in agreement with its history the rate is the tokens of the covered buckets over their time |
| `Throughput.RunFollows` | internal/mockworker/engine.go:228-245 | every run on a clock that does not go back keeps ring and history in agreement |
| `Throughput.FirstIsBusySince` | internal/mockworker/engine.go:228-245 | the meter’s mark is the bucket of the last tokens that came after a gap longer than the window |
| `Lru.UseKeepsExact` | internal/auth/lru.go:22-43 | hits and stores keep the cache at exactly its most recently used keys |
| `Lru.RemovalIsExact` | internal/auth/lru.go:45-50 | a removal keeps it at exactly those if and only if the key was not held or nothing had been evicted; it always holds a most recent part |
| `Lru.PutFacts` | internal/auth/lru.go:31-43 | storing keeps keys distinct and the size bounded, and changes no other value |
| `Lru.Cache.Get` | internal/auth/lru.go:22-29 | a hit moves to the front and gives the value |
| `Lru.Cache.Insert` | internal/auth/lru.go:31-43 | storing updates or pushes in front and evicts from the back |
| `Lru.Cache.Delete` | internal/auth/lru.go:45-50 | a key is removed from list and map |
| `Lru.StoreKeeps` | internal/auth/lru.go:31-43 | storing keeps the cache a most recent part of the keys |
| `Lru.HitKeeps` | internal/auth/lru.go:22-29 | a hit keeps the cache a most recent part of the keys |
| `Lru.CacheFollows` | internal/auth/lru.go:22-50 | in every run of hits, stores and removals the cache is exactly the first keys of the recency list, as many as fit less the gaps |
| `Lru.ExactWithoutGaps` | internal/auth/lru.go:22-50 | so in every run it holds exactly its most recently used keys if and only if no gap is left |
| `Lru.UseFollows` | internal/auth/lru.go:22-50 | one use keeps that: removing a held key while others wait beyond the size opens a gap, storing a key that is not held closes one |
| `Lru.EvictedKeyStaysAway` | internal/auth/lru.go:45-50 | a run that opens a gap, and the store that closes it |
| `Auth.StalenessIsBounded` | internal/auth/authenticator.go:217-446 | in every run and under any clock, readings taken before their locks: a record from the cache was stored at most the lifetime before the reading it was judged by, a stale copy at most lifetime and grace; no prefix is in both caches; each cache is exactly what its uses leave of the most recently used keys; lookups in flight are counted exactly and bounded |
| `Auth.StaleOnlyInTrouble` | internal/auth/authenticator.go:217-249 | a step that gives a request a copy past its time could not ask the store, or did not get its answer |
| `Auth.RefreshHasRoom` | internal/auth/authenticator.go:290-321 | a refresh is not refused for lack of room while fewer refreshes than the reserve are in flight, however many new keys are being looked up |
| `Auth.NextInv` | internal/auth/authenticator.go:217-446 | every step keeps caches, lookups and requests sound |
| `Auth.Authenticator.CachedLocked` | internal/auth/authenticator.go:251-273 | the answer of the caches, with what is too old dropped |
| `Auth.Authenticator.Record` | internal/auth/authenticator.go:217-249 | the first locked section of a request |
| `Auth.Authenticator.FetchLocked` | internal/auth/authenticator.go:295-324 | the locked section of fetch: answer, join, refuse or start a lookup |
| `Auth.Authenticator.LookupDone` | internal/auth/authenticator.go:353-404 | the end of a lookup: caches, backoff and everyone waiting |
| `Auth.VerdictOk` | internal/auth/authenticator.go:251-273 | what the caches call fresh or stale was stored for that key within the lifetime, or lifetime and grace |
| `Auth.BeginInv` | internal/auth/authenticator.go:217-249 | the first section of a request keeps everything sound |
| `Auth.FetchInv` | internal/auth/authenticator.go:295-331 | fetch keeps everything sound |
| `Auth.LandInv` | internal/auth/authenticator.go:353-404 | the end of a lookup keeps everything sound |
| `Auth.EveryStaleAnswerHadTrouble` | internal/auth/authenticator.go:217-249 | in every run every answer with a copy past its time was given by such a step of that request |
| `Auth.TimelyUnlessJoinedLate` | internal/auth/authenticator.go:295-404 | in every run on a clock that does not go back, no waiting request is the lifetime or more behind the answer its lookup already has, if and only if nobody joins a lookup that late |
| `Auth.NextTimely` | internal/auth/authenticator.go:295-404 | one step keeps that if and only if it is no late join |
| `Auth.JoinedLookupsAreFresh` | internal/auth/authenticator.go:353-404 | in every such run without a late join a record from a lookup is as fresh as one from the cache |
| `Auth.LateJoinIsServedOld` | internal/auth/authenticator.go:353-404 | a request that has joined late is handed a record past its lifetime |
| `Auth.NoteInv` | internal/auth/authenticator.go:434-446 | noting the use of a served key keeps caches, lookups and requests sound |
| `Auth.Authenticator.NoteUse` | internal/auth/authenticator.go:434-446 | the section that notes a use is that step of the runs |
| `AuthRuns.OldRecordIsServed` | internal/auth/authenticator.go:217-404 | a complete run, on a clock that does not go back, that serves such a record |

## Left out

- HTTP handlers, relays, timers, logging, metrics and tracing: plumbing around the core.
- The signals ledger of the router and the work-aware and random strategies: the overlay without the ledger and the
  least-loaded choice over any load are modelled; round robin is the rotor alone.
- Registry, configuration, tenants, key hashing and random IDs: fresh and unique values are inputs.
- The time of the last use of a key and the queue of `last_used_at` updates: only the use of the cache is a step.
- Decoding of events: a record of the log is what classification makes of it; rebalancing and several partitions.
- Metrics of waiting times, `Snapshot`, `Counts`, `RetryAfter` and the change hook of the breakers: they only read.
- `Budget.Prune`: the budget is modelled without it.
- Rounding of the jittered cool-down: the product is a real and truncated to whole nanoseconds.
- Objects shared by reference: a waiter, a breaker and a reservation are records in their owner’s map or list, a breaker’s
  window is the value that `SlidingWindow` is proved to implement, and a reservation is the position of its grant.
- Redis, PostgreSQL and Kafka: a key is gone once the clock has passed its expiry, rows are inserted unless a key
  conflicts, a refusal depends on the row alone, and a topic is a sequence.
- Router.RouterState.Select: requires workers with distinct IDs, as the registry delivers them
  (`internal/registry/registry.go:149-160`); what happens otherwise is in `DropProgresses` and `SameIdIsChosenAgain`.
- Router.RouterState.Reserve: the same.
- Budget.RetriesStayWithinBudget: clock readings at or after the epoch, because the source’s truncating division is a
  floor only there.
- BreakerHistory.TripRefinesHistory: clock readings at or after the epoch, for the same reason. An abort that does not fit
  may still leave the decision as it is; what is exact is the agreement of window and list.
- BreakerFleet.FleetTripRefinesHistory: the same.
- RateScript: quotas, bursts and costs within the bounds of the limiter, and clock readings whose sums stay below 2^53.
- The router’s error codes and retry hints: only the counts they are made from are modelled.

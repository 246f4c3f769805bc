# Models of the Stellara backend

These Dafny modules model the stateful core of the Stellara backend and of its event indexer, and prove what their
runs keep. Every object whose methods update its fields is a class, and every method of such a class is proved
against a function of the old state. The results about whole runs are lemmas about those functions. Protocols whose
callers suspend and interleave are transition systems over one action at a time.

| area | files | what is proved |
|---|---|---|
| circuit breaker | `Breaker`, `BreakerRuns`, `BreakerMoves` | counters over all overlapping calls; the trimmed window decides like the full failure log; what each event does in each state |
| two-tier cache | `CacheProtocol`, `CacheInvariant`, `CacheSteps`, `CacheFresh`, `CacheOrigin`, `CacheRollback`, `CacheLateSet`, `CacheFlights`, `CacheServed`, `CacheTrace`, `CacheNode` | freshness over all interleavings; where it fails; single flight; what reads are served; the L1 map as an LRU list |
| event indexer | `Indexer`, `IndexerReplay`, `IndexerRuns`, `IndexerGaps`, `IndexerMeaning` | what events mean for the rows; when replay changes nothing; crash recovery equals one in-order pass; what is skipped |
| margin accounts | `Greedy`, `Sorting`, `Margin`, `MarginMeaning`, `LiquidationRounds`, `Interest` | what the totals mean, what one liquidation moves, when repeated ones rescue an account, how long a new loan stays healthy |
| data retention | `Filtering`, `Retention`, `RetentionRuns`, `RetentionHolds`, `Lock` | when the batch loop ends and what it leaves; whom holds protect; timed mutual exclusion |
| clearing | `Clearing`, `ClearingRuns`, `SmokeClearing`, `ClearingMoves` | zero-sum books, path independence, the default waterfall; which way money moves |
| analytics | `Floors`, `Rollups`, `RollupRuns`, `Delimited` | rollups agree with snapshots; the export has an inverse |
| liquidity mining | `Rewards`, `RewardMoves` | a lifetime bound on rewards; stakes as net flows |
| shutdown | `Drain` | in-flight counting and release of waiters |
| ABI registry | `AbiRegistry` | order of versions, resolution, the current flag |

`Common` holds a few shared definitions. `dfyconfig.toml` lists the whole project.

Conventions: money, prices and rates are `real`; times are `int` milliseconds unless the source counts seconds or days;
a database table is a sequence in query order or a map by its unique key; the clock, prices and answers of remote
systems are parameters.

## Where the code does not do what it sets out to do

Each is stated as an exact condition or a concrete run.

- A call from before a trip that ends during HALF_OPEN takes a probe slot back, so more probes run than the cap allows
  (`AccurateAfterStepIff`, `StaleFinishOverrunsCap`). Widening the failure window forgets failures already trimmed
  (`WideningWindowForgetsFailures`). A reconfiguration can leave the probe cap out of force (`ReconfiguringKeepsCapIff`).
- A set that is under way at an invalidation files its old value under the new version, and later reads return it
  (`FreshIffNotUnderway`, `SetUnderwayIsReadAsStale`). The first use of a tag writes version 1 unconditionally; done
  late, it revives values that an invalidation had retired (`FirstUseSetRevivesOldVersion`). Two callers can fetch one
  key at once (`SingleFlightIff`, `TwoFetchesOfOneKey`).
- An indexer page that stops inside a ledger skips the rest of the ledger (`ResumesAfterPageIff`). A replay repeats
  updates that came before their row was created, so it can change what one pass gives (`ReplayIsIdleIff`,
  `EarlyApprovalBreaksReplay`). An event whose data does not fit its handler holds the indexer until a reset or such a
  page takes it past the event (`MisfitBlocks`). A reset drops what was not yet indexed below its ledger
  (`ResetLoses`); a first answer without events makes a new database forget its configured start
  (`EmptyFirstAnswerForgetsStart`).
- The 20% floor of a partial liquidation never decides, and its 70% target is never reached (`EligibleRepays`,
  `RatioAfterRound`). Rounds rescue an account exactly when collateral exceeds 1.05 times debt (`RescuedIff`); a
  liquidation that takes all collateral leaves debt that reads as healthy (`UncoveredReadsHealthy`); with several
  loans a pledge can be overdrawn (`NoPledgeOverdrawnIff`). An overdrawn account is granted any loan (`GrantedIff`).
- A live retention run never ends when expired records on hold fill a page (`LiveRunEndsIff`). A dry run still archives
  (`DryRunForecasts`). A worker that outlives its lock lets another in (`MutualExclusionIff`), and the lock's
  compare-and-delete is two requests, so a late release can delete another worker's lock (`OvertakenReleaseIff`,
  `LateDeleteRemovesAnothersLock`).
- A settlement takes gains off the balance, so members who gain are found in breach and those who lose are not
  (`BreachIff`). The first tier of the default waterfall then absorbs everything, so the fund never pays
  (`TierOneAbsorbs`). Reusing a trade id leaves variation margin without positions that explain it
  (`AcceptExplainsIff`).
- A metrics tick that fails half-way leaves a rollup stale until the next complete tick in its bucket
  (`HalfTickExactIff`, `LastTickDecides`).
- Adding to a stake with a shorter tier shortens its lock (`LockShortensIff`). Rewriting the current ABI version
  without marking it leaves the registry without a flagged version (`StaysFlaggedIff`).

## Model

| member | source | states |
|---|---|---|
| Breaker.MergeConfig | Backend/src/circuit-breaker/circuit-breaker.service.ts:304-319 | whatever numbers are passed, the merged configuration is within its lower bounds, and merging nothing changes nothing |
| BreakerMoves.MergeTakes | Backend/src/circuit-breaker/circuit-breaker.service.ts:304-319 | a passed number within its bound is taken, one below it becomes the bound, and what is not passed stays, for each of the five fields |
| Breaker.CircuitRuntime.TransitionState | Backend/src/circuit-breaker/circuit-breaker.service.ts:249-302 | the whole record after a transition, for each target state |
| Breaker.CircuitRuntime.TrimFailures | Backend/src/circuit-breaker/circuit-breaker.service.ts:244-247 | keeps, in order, exactly the failures within the window |
| Breaker.CircuitRuntime.Begin | Backend/src/circuit-breaker/circuit-breaker.service.ts:58-101 | the record after the synchronous part of a call before its action, and whether the action runs |
| Breaker.CircuitRuntime.FinishSuccess | Backend/src/circuit-breaker/circuit-breaker.service.ts:100-124 | the record after a call's action resolved, slot given back |
| Breaker.CircuitRuntime.FinishFailure | Backend/src/circuit-breaker/circuit-breaker.service.ts:105-124 | the record after a call's action rejected, slot given back |
| Breaker.CircuitRuntime.RecordSuccess | Backend/src/circuit-breaker/circuit-breaker.service.ts:205-221 | the record after a success: trimmed, and in HALF_OPEN one more success, a wider cap, and closed at the threshold |
| Breaker.CircuitRuntime.RecordFailure | Backend/src/circuit-breaker/circuit-breaker.service.ts:223-242 | the record after a failure: open from HALF_OPEN at once, from CLOSED at the threshold |
| Breaker.CircuitRuntime.ReleaseSlot | Backend/src/circuit-breaker/circuit-breaker.service.ts:118-124 | any call ending in HALF_OPEN lowers a positive probe count |
| Breaker.CircuitRuntime.ForceOverride | Backend/src/circuit-breaker/circuit-breaker.service.ts:126-140 | the record after a manual override |
| Breaker.CircuitRuntime.ResetCircuit | Backend/src/circuit-breaker/circuit-breaker.service.ts:142-156 | the record after a reset; totals survive |
| Breaker.CircuitRuntime.Configure | Backend/src/circuit-breaker/circuit-breaker.service.ts:169-176 | only the configuration changes |
| BreakerRuns.StepKeepsCore | Backend/src/circuit-breaker/circuit-breaker.service.ts:58-156 | every begin, end, override, reset and reconfiguration keeps the counters consistent: openedAt is null exactly when CLOSED, no probe counted outside HALF_OPEN, totals account for every running call |
| BreakerRuns.EveryRunKeepsCore | Backend/src/circuit-breaker/circuit-breaker.service.ts:58-282 | so does every run of any overlapping calls, and with a fixed configuration the probe cap holds |
| BreakerRuns.ReachableCircuitIsCapped | Backend/src/circuit-breaker/circuit-breaker.service.ts:58-101 | from a new circuit, in-flight probes never exceed min(maximum, 1 + consecutive successes) |
| BreakerRuns.ReconfiguringKeepsCapIff | Backend/src/circuit-breaker/circuit-breaker.service.ts:169-176 | a reconfiguration keeps that cap in force exactly when it leaves its present value alone |
| BreakerRuns.AccurateAfterStepIff | Backend/src/circuit-breaker/circuit-breaker.service.ts:118-124 | the probe counter stays equal to the running probes exactly unless a call from before the HALF_OPEN period succeeds in it, below the success threshold and with a slot taken |
| BreakerRuns.ProbeCountIsExact | Backend/src/circuit-breaker/circuit-breaker.service.ts:58-124 | without such calls the counter is exact in every run |
| BreakerRuns.StaleFinishFreesSlot | Backend/src/circuit-breaker/circuit-breaker.service.ts:118-124 | a step of a run from a new circuit: the end of a call from before the trip gives back the slot of the one running probe |
| BreakerRuns.StaleFinishOverrunsCap | Backend/src/circuit-breaker/circuit-breaker.service.ts:83-124 | the whole run from a new circuit, at the end of which three probes run under a cap of two |
| BreakerRuns.EveryRunRemembers | Backend/src/circuit-breaker/circuit-breaker.service.ts:223-247 | in every run the trimmed list is the full log since it closed, without the entries some past window excluded |
| BreakerRuns.TripsOnRememberedHistory | Backend/src/circuit-breaker/circuit-breaker.service.ts:223-247 | after any run a failure trips a CLOSED circuit exactly when that log has enough entries in the present window and all past ones |
| BreakerRuns.TripsExactlyOnFullHistory | Backend/src/circuit-breaker/circuit-breaker.service.ts:223-247 | if no reconfiguration widens the window, that is exactly the sliding window over the complete failure log |
| BreakerRuns.WideningWindowForgetsFailures | Backend/src/circuit-breaker/circuit-breaker.service.ts:244-247 | a widened window over two failures at the threshold, and no trip |
| BreakerRuns.NothingAdmittedBeforeTimeout | Backend/src/circuit-breaker/circuit-breaker.service.ts:68-101 | after a trip every call is rejected until the open timeout has passed |
| BreakerRuns.ClosesOnThresholdProbe | Backend/src/circuit-breaker/circuit-breaker.service.ts:205-221 | successive probes are admitted and close the circuit at the threshold, not earlier |
| BreakerMoves.HalfOpenOutcome | Backend/src/circuit-breaker/circuit-breaker.service.ts:205-242 | from HALF_OPEN: closed exactly by the success that reaches the threshold, a forced close or a reset; open exactly by a failure or a forced opening, from that moment on |
| BreakerMoves.OpenOutcome | Backend/src/circuit-breaker/circuit-breaker.service.ts:68-101 | from OPEN: closed exactly by a forced close or a reset, probed exactly by a call under automatic control from the timeout on; late ends of calls change nothing |
| BreakerMoves.ClosedOutcome | Backend/src/circuit-breaker/circuit-breaker.service.ts:223-242 | from CLOSED: never half-open, and open only by a failure or a forced opening, from that moment on |
| BreakerMoves.AdmittedIff | Backend/src/circuit-breaker/circuit-breaker.service.ts:58-101 | which calls are let through, by override, state, timeout and probe count |
| BreakerMoves.OverrideOutcome | Backend/src/circuit-breaker/circuit-breaker.service.ts:126-156 | an override holds until the next one or a reset |
| BreakerMoves.UnconfiguredCircuit | Backend/src/circuit-breaker/circuit-breaker.service.ts:47-53 | in every run with the defaults: the fifth failure within 10 s trips, probes start 30 s after, at most 10 at once, and the third success in a row closes |
| BreakerMoves.EveryRunCounts | Backend/src/circuit-breaker/circuit-breaker.service.ts:58-124 | in every run the totals are the calls, successes, failures, refusals and fallbacks an observer counts |
| CacheSteps.StepKeeps | Backend/src/cache/advanced-cache.service.ts:89-299 | every action of every caller on every node keeps the cache invariant |
| CacheSteps.EveryRunKeeps | Backend/src/cache/advanced-cache.service.ts:89-299 | so does every interleaving |
| CacheOrigin.StepKeepsOrigin | Backend/src/cache/advanced-cache.service.ts:89-299 | every action keeps track of where values come from: a value that was not fetched is the argument of a set call that stored it under the key it had computed |
| CacheOrigin.ReturnedValueMatchesKey | Backend/src/cache/advanced-cache.service.ts:187-299 | a returned value is filed under exactly the key the read computed; a fetched one was begun after each tag version in it came to be, and any other is the argument of a set call for that key |
| CacheOrigin.ReturnedValueWasFetched | Backend/src/cache/advanced-cache.service.ts:224-241 | in every run, a returned value that no set brought is what the fetcher returned to a call that had computed exactly that key |
| CacheOrigin.FreshIffNotUnderway | Backend/src/cache/advanced-cache.service.ts:284-299 | a value whose key was complete after a bump came to be after it exactly unless the set call that brought it was under way at the bump |
| CacheOrigin.NoStaleValueAfterInvalidation | Backend/src/cache/advanced-cache.service.ts:171-241 | a read started on a node after an invalidation completed there returns a value from after the version bump, exactly unless a set call under way at the bump brought it |
| CacheOrigin.StalenessIsBounded | Backend/src/cache/advanced-cache.service.ts:89-121 | on any node, the same for bumps at least the 30 s of the version cache plus one reply latency before the read |
| CacheLateSet.SetUnderwayIsReadAsStale | Backend/src/cache/advanced-cache.service.ts:284-299 | a run, without first-use SET, expiry or second node, in which a read that starts after an invalidation completed returns the argument of a set that started before it |
| CacheRollback.FirstUseSetRevivesOldVersion | Backend/src/cache/advanced-cache.service.ts:102-108 | a run in which the first-use SET revives a version and a later read returns a value from before the invalidation |
| CacheRollback.TheSetRollsBack | Backend/src/cache/advanced-cache.service.ts:105-108 | that SET is the one step of the run which the safe runs exclude |
| CacheFlights.SingleFlightIff | Backend/src/cache/advanced-cache.service.ts:203-240 | in every run, no state has two flights for one key on a node exactly if no L2 miss is handled while a flight for its key is registered |
| CacheFlights.AtMostOneFetchPerKey | Backend/src/cache/advanced-cache.service.ts:203-240 | in such a run a read that misses L1 while its key is fetched can only join that fetch |
| CacheFlights.TwoFetchesOfOneKey | Backend/src/cache/advanced-cache.service.ts:203-240 | a run with two fetches of one key, since check and registration are apart |
| CacheServed.FetchThenSettle | Backend/src/cache/advanced-cache.service.ts:224-241 | a fetch that succeeds returns what the fetcher returned, under the key computed |
| CacheServed.FlightDelivers | Backend/src/cache/advanced-cache.service.ts:203-241 | in every later state the leader holds or has returned that value, and so does everyone who joined it, once woken |
| CacheServed.FailedFlight | Backend/src/cache/advanced-cache.service.ts:224-241 | when the fetch fails, neither its caller nor who joined it gets a value |
| CacheServed.PutsInBothTiers | Backend/src/cache/advanced-cache.service.ts:224-299 | a successful fetch and a set put their value into L1 and send it to L2 |
| CacheServed.StoredIsServed | Backend/src/cache/advanced-cache.service.ts:194-201 | while a node keeps a key in L1 its reads of the key can only hit, and return the very value unless another was stored since |
| CacheServed.LandedIsShared | Backend/src/cache/advanced-cache.service.ts:212-221 | a value whose write has landed is what any node's L2 lookup is answered, until it is overwritten or goes |
| CacheServed.L2HitIsServed | Backend/src/cache/advanced-cache.service.ts:213-221 | an L2 hit is returned and put into the node's L1 |
| CacheServed.RequestStays | Backend/src/cache/advanced-cache.service.ts:187-299 | a call goes on asking for the key, tags and kind it was started with |
| CacheServed.VersionIsRead | Backend/src/cache/advanced-cache.service.ts:89-121 | a version lookup answers with what Redis has for the tag, or that it has none |
| CacheServed.VersionIsRemembered | Backend/src/cache/advanced-cache.service.ts:99-114 | a looked-up version is used and remembered for 30 s |
| CacheServed.UseCachedIff | Backend/src/cache/advanced-cache.service.ts:95-99 | a remembered version can be used exactly until its time is over |
| CacheServed.FirstUseSets | Backend/src/cache/advanced-cache.service.ts:102-108 | a tag found without a version is set to 1, whatever is there by then |
| CacheServed.BumpRaises | Backend/src/cache/advanced-cache.service.ts:171-179 | an invalidation raises each of its tags by one and no other |
| CacheServed.InvalidationForgets | Backend/src/cache/advanced-cache.service.ts:181-184 | and forgets just their versions on its node once answered |
| CacheServed.WhoDoesWhat | Backend/src/cache/advanced-cache.service.ts:171-299 | sets alone write, invalidations alone bump, reads alone fetch, each only once all its versions are known; hits need the key in L1 and misses its absence |
| CacheServed.NeverStuck | Backend/src/cache/advanced-cache.service.ts:89-299 | a call that has not finished and awaits neither a reply nor a flight always has its next step to take |
| CacheNode.NodeMemory.GetL1 | Backend/src/cache/advanced-cache.service.ts:141-155 | the map after a lookup and its answer, expiry and move to the end included |
| CacheNode.NodeMemory.SetL1 | Backend/src/cache/advanced-cache.service.ts:157-169 | the map after an insertion with its evictions; the eviction loop ends for every limit |
| CacheNode.NodeMemory.Delete | Backend/src/cache/advanced-cache.service.ts:145-152 | removes the key and keeps the order of the rest |
| CacheNode.NodeMemory.RememberVersion | Backend/src/cache/advanced-cache.service.ts:110 | remembers a tag version for 30 s |
| CacheNode.NodeMemory.ForgetTags | Backend/src/cache/advanced-cache.service.ts:181-184 | forgets exactly the invalidated tags |
| CacheNode.Evictions | Backend/src/cache/advanced-cache.service.ts:160-166 | how many entries the eviction loop removes: just enough to leave room for one |
| CacheNode.EveryRunKeepsRecency | Backend/src/cache/advanced-cache.service.ts:141-169 | after any operations the map order is the order of last touch and the size is within the limit |
| CacheNode.EvictionTakesLeastRecent | Backend/src/cache/advanced-cache.service.ts:160-166 | every evicted entry was touched before every kept one |
| CacheNode.OverwriteIsNotATouch | Backend/src/cache/advanced-cache.service.ts:168 | storing a present key does not move it |
| CacheNode.StoredUntil | Backend/src/cache/advanced-cache.service.ts:141-169 | a stored value is served until its seconds have passed and not at that moment; without a positive lifetime it does not expire |
| CacheNode.StoreRefinesProtocol | Backend/src/cache/advanced-cache.service.ts:157-169 | an insertion is one of the protocol's moves: some keys forgotten, one put |
| CacheNode.LookupRefinesProtocol | Backend/src/cache/advanced-cache.service.ts:141-155 | a lookup returns what is stored and forgets at most its key |
| Indexer.EventDatabase.Execute | indexer/database.ts:134-316 | each statement's effect: insert-or-ignore by unique key, or overwrite of an existing row |
| Indexer.EventDatabase.UpdateCursor | indexer/database.ts:345-350 | only the cursor changes |
| Indexer.EventIndexer.ProcessEvent | indexer/index.ts:316-376 | the tables after as many statements of an event as succeed, and whether it went through |
| Indexer.EventIndexer.PollPage | indexer/index.ts:278-314 | the tables and cursor after a page, failing at any statement |
| Indexer.EventIndexer.Poll | indexer/index.ts:240-314 | one turn of the loop for every kind of answer |
| IndexerReplay.LastUpdateWins | indexer/database.ts:258-272 | after a prefix of the statements a field of an existing row holds what the last statement updating it wrote, even if the row came later |
| IndexerReplay.Replay | indexer/index.ts:316-376 | replaying a stretch over tables that already hold its effects leaves them recoverable further on |
| IndexerReplay.ExactWhenNothingToReplay | indexer/index.ts:316-376 | recoverable tables with nothing to replay equal the in-order fold |
| IndexerReplay.ReplayIsIdleIff | indexer/database.ts:134-316 | replaying any prefix of the statements over its own result changes nothing exactly if, for every row updated before it is first created, the last such update of each field writes the value the creation gives it; then replaying any stretch changes nothing |
| IndexerMeaning.RowsExistIff | indexer/index.ts:118-216 | after a pass a proposal, reward, trade or event row exists exactly if an event created it |
| IndexerMeaning.ProposalIsLast | indexer/index.ts:150-197 | after a pass over any events a proposal has the fields of its first creation, the status of the last of its status events since (rejected, executed, cancelled, or approved at the threshold; else pending), and the count of the last approval since |
| IndexerMeaning.RewardIsLast | indexer/index.ts:199-221 | a reward has the fields of the event that first added it and the time of the last claim since |
| IndexerMeaning.FirstEventStays | indexer/index.ts:118-135 | a trade row and a stored event are those of the first event with their key |
| IndexerRuns.StepKeeps | indexer/index.ts:240-314 | polls, failures at any statement and restarts keep the tables recoverable |
| IndexerRuns.CaughtUpMeansOnePass | indexer/index.ts:240-376 | whenever the indexer waits at the end of the chain, its tables equal one in-order pass, whatever failed before; rows that were created before the indexed stretch may be updated in it |
| IndexerRuns.NewDatabaseMeansOnePass | indexer/index.ts:247-314 | a new database that starts at any ledger ends with one in-order pass over the events from there on, provided restarts begin there too and the first answer has events |
| IndexerRuns.SettlingReachesOnePass | indexer/index.ts:240-314 | that state is reached by as many undisturbed polls as there are events left |
| IndexerGaps.ResumesAfterPageIff | indexer/index.ts:278-314 | the next poll continues right after the page exactly if the next event of the chain is of a later ledger than the page's last; what it skips is just the rest of that ledger |
| IndexerGaps.EmptyFirstAnswerForgetsStart | indexer/index.ts:240-314 | the first successful poll of a new database keeps to the configured start exactly if an event from there on is published, and otherwise goes back to ledger 1 |
| IndexerGaps.PageMeaning | indexer/index.ts:280-293 | a page holds the first hundred published events from its start on, or all if they are fewer |
| IndexerGaps.StartOutcome | indexer/index.ts:250-260 | a process starts at its cursor if it has one, else as configured, else 100 ledgers back |
| IndexerGaps.EarlyApprovalBreaksReplay | indexer/index.ts:174-182 | a stream that is not replay-safe: an approval before its proposal has an effect only on replay |
| IndexerGaps.MisfitBlocksStep | indexer/index.ts:247-376 | of all steps, exactly three get the indexer past an event whose handler throws: a reset to its ledger or later, a handled page that ends before it in its ledger, a new database restarted at a later ledger |
| IndexerGaps.MisfitBlocks | indexer/index.ts:247-376 | every run, of any steps, stays before such an event exactly until one of those |
| IndexerGaps.ResetLoses | indexer/index.ts:300-306 | after a reset, an event before the ledger it goes to that was not in the table never gets there |
| Margin.MarginAccount.CalculateHealth | Backend/src/collateral/collateral.service.ts:184-255 | totals, ratio, factor and status are those of the rows; valuations are stored |
| Margin.MarginAccount.ValuePledges | Backend/src/collateral/collateral.service.ts:197-213 | collateral before and after haircuts as sums over the pledges |
| Margin.MarginAccount.RequestLoan | Backend/src/collateral/collateral.service.ts:146-179 | refused or appended, with health of the result |
| Margin.MarginAccount.AccrueInterest | Backend/src/collateral/collateral.service.ts:262-283 | each loan gains one day of simple interest on its principal |
| Margin.MarginAccount.LiquidateAccount | Backend/src/collateral/liquidation.service.ts:55-180 | rejected below 0.9, else the rows after repaying loans by principal and seizing pledges by value |
| Margin.MarginAccount.RepayAndSeize | Backend/src/collateral/liquidation.service.ts:95-173 | the loop over the loans, including its early end |
| Margin.MarginAccount.SeizeFor | Backend/src/collateral/liquidation.service.ts:109-134 | the loop over the pledges, reading amounts from before the liquidation |
| Margin.MarginAccount.Monitor | Backend/src/collateral/liquidation.service.ts:22-47 | an account whose stored health is at risk goes through one round; any other is left alone whatever the prices |
| Margin.EligibleHasRows | Backend/src/collateral/liquidation.service.ts:70-72 | an eligible account always has a pledge and a loan, so the empty check never fires |
| MarginMeaning.PledgeAdds | Backend/src/collateral/collateral.service.ts:197-213 | a pledge adds its amount at its price, and that less its haircut to the adjusted total |
| MarginMeaning.LoanAdds | Backend/src/collateral/collateral.service.ts:215-221 | a loan adds principal and interest at its price |
| MarginMeaning.HealthMeaning | Backend/src/collateral/collateral.service.ts:223-231 | the ratio and factor against the totals, and the status against 80% and 90% of the collateral |
| MarginMeaning.FullLiquidation | Backend/src/collateral/liquidation.service.ts:84-154 | a full liquidation leaves no debt and wants 1.05 times it in collateral |
| Sorting.SortDescending | Backend/src/collateral/liquidation.service.ts:74-82 | the sort orders by key, descending |
| Sorting.SortElements | Backend/src/collateral/liquidation.service.ts:74-82 | and permutes |
| Sorting.SortSum | Backend/src/collateral/liquidation.service.ts:74-82 | and changes no total |
| Greedy.TakesAll | Backend/src/collateral/liquidation.service.ts:117-134 | from a descending list that covers it, exactly the wanted value is taken |
| Greedy.NothingOverdrawnIff | Backend/src/collateral/liquidation.service.ts:109-134 | several wants from one untouched list overdraw no entry exactly when one want is positive or the first entry covers all |
| LiquidationRounds.RepaidLoan | Backend/src/collateral/liquidation.service.ts:136-154 | a repayment lowers the debt by just its value, interest first, never below zero |
| LiquidationRounds.LargerFirst | Backend/src/collateral/liquidation.service.ts:74-134 | a loan is repaid only after every one of larger principal in full, and for each loan a pledge is drawn on only after every more valuable one in full |
| LiquidationRounds.EligibleRepays | Backend/src/collateral/liquidation.service.ts:84-93 | an eligible account repays exactly B - 0.7C, at least two ninths of B; the 20% floor never decides |
| LiquidationRounds.RoundConserves | Backend/src/collateral/liquidation.service.ts:95-173 | C - 1.05B is unchanged while each want fits the collateral; otherwise no collateral is left |
| LiquidationRounds.ConservesIff | Backend/src/collateral/liquidation.service.ts:109-134 | that condition is exact for non-negative pledges |
| LiquidationRounds.NoPledgeOverdrawnIff | Backend/src/collateral/liquidation.service.ts:117-134 | no pledge goes negative exactly when one loan is repaid or the largest pledge covers everything |
| LiquidationRounds.RatioAfterRound | Backend/src/collateral/liquidation.service.ts:84-93 | the ratio stays above 70% and falls exactly when C exceeds 1.05B |
| LiquidationRounds.UncoveredReadsHealthy | Backend/src/collateral/collateral.service.ts:223-231 | a round leaves no collateral exactly when 1.05 times its repayment reaches the collateral, and then a debt of 0.7C reads as HEALTHY |
| LiquidationRounds.CoveredRound | Backend/src/collateral/liquidation.service.ts:55-180 | a covered round keeps C - 1.05B and cuts debt to at most seven ninths |
| LiquidationRounds.RoundsSuffice | Backend/src/collateral/liquidation.service.ts:22-47 | 11B / (40(C - 1.05B)) rounds bring a covered account below 0.9 for good |
| LiquidationRounds.NeverRescued | Backend/src/collateral/liquidation.service.ts:22-47 | an uncovered account is never below 0.9 with collateral left, after any number of rounds |
| LiquidationRounds.RescuedIff | Backend/src/collateral/liquidation.service.ts:22-180 | some number of rounds rescues an eligible account exactly when C exceeds 1.05B |
| Interest.GrantedIff | Backend/src/collateral/collateral.service.ts:157-167 | a request is granted up to 70% on positive collateral, for nothing on none, and always on negative collateral |
| Interest.GrantedLoanIsHealthy | Backend/src/collateral/collateral.service.ts:157-178 | a loan granted on positive collateral leaves the account HEALTHY at 70% or less |
| Interest.DebtAfterDays | Backend/src/collateral/collateral.service.ts:262-283 | after n accruals the debt has grown by n days of simple interest |
| Interest.HealthyOnDayIff | Backend/src/collateral/collateral.service.ts:223-231 | still HEALTHY on day n exactly while debt and interest stay below 80% |
| Interest.HealthyFor1042Days | Backend/src/collateral/collateral.service.ts:262-283 | an account at 70% or less stays HEALTHY for 1042 days at constant prices |
| Interest.Day1043Calls | Backend/src/collateral/collateral.service.ts:262-283 | and may not for 1043 |
| Retention.RetentionTable.ExecuteRetentionLoop | Backend/src/data-retention/data-retention.service.ts:797-868 | table, archive and counts after any number of loop turns, and whether the loop has ended |
| Retention.RetentionTable.DeleteByIds | Backend/src/data-retention/data-retention.service.ts:788-793 | deletes the rows with those ids and counts them |
| RetentionRuns.DeleteTakes | Backend/src/data-retention/data-retention.service.ts:829-851 | deleting the free records of a page removes the leading due records and nothing else |
| RetentionRuns.LiveRunIsExact | Backend/src/data-retention/data-retention.service.ts:816-867 | a run that ended leaves the table without its due records in order, each archived once in order, with matching counts |
| RetentionRuns.LiveRunEndsIff | Backend/src/data-retention/data-retention.service.ts:849-859 | a live run ends exactly when expired records on hold do not fill a page |
| RetentionRuns.DryRunForecasts | Backend/src/data-retention/data-retention.service.ts:832-855 | a dry run ends, deletes nothing, counts the due records, and archives them |
| RetentionRuns.DryRunAgreesWithLive | Backend/src/data-retention/data-retention.service.ts:816-867 | and agrees with the live run on the same table |
| RetentionHolds.HoldProtects | Backend/src/data-retention/data-retention.service.ts:926-949 | a record under an active hold without end, or with its end to come, is in the table after any number of turns |
| RetentionHolds.RecentStays | Backend/src/data-retention/data-retention.service.ts:768-784 | so is a record not older than the cutoff, or of another tenant |
| RetentionHolds.DeletedIff | Backend/src/data-retention/data-retention.service.ts:816-949 | a live run that has ended has deleted a record exactly if it is old enough and every hold on it is inactive or over |
| RetentionHolds.MoreHoldsDeleteLess | Backend/src/data-retention/data-retention.service.ts:926-949 | adding, lengthening or activating holds never deletes more |
| Lock.MutualExclusion | Backend/src/data-retention/data-retention.service.ts:951-973 | if every holder is done before its lock expires, at most one worker is busy at any point of any run |
| Lock.MutualExclusionIff | Backend/src/data-retention/data-retention.service.ts:951-973 | with workers of any speed, at most one is busy throughout a run exactly if none asks for the lock while another is busy past its expiry |
| Lock.ReleaseDeletesOwn | Backend/src/data-retention/data-retention.service.ts:965-972 | with workers of any speed, while nobody is overtaken a release never removes another worker's entry; one in time deletes its own, and after any the next worker gets the lock |
| Lock.OvertakenReleaseIff | Backend/src/data-retention/data-retention.service.ts:956-972 | once a worker is overtaken, its release, whenever it comes, removes another's entry exactly if it had already read its own token and an entry is there; at once, it is the overtaker's |
| Lock.CrashExpires | Backend/src/data-retention/data-retention.service.ts:956-963 | a dead holder delays the next worker exactly until expiry |
| Lock.OverrunLetsAnotherIn | Backend/src/data-retention/data-retention.service.ts:956-966 | without the hypothesis two workers can run |
| Lock.LateDeleteRemovesAnothersLock | Backend/src/data-retention/data-retention.service.ts:967-971 | a run from the free lock in which that happens, and a third worker then runs beside a second that is on time |
| Clearing.ClearingService.AcceptTrade | Backend/src/clearing/clearing.service.ts:35-133 | both positions inserted under their ids, both margins reserved |
| Clearing.ClearingService.EnsureAccount | Backend/src/clearing/clearing.service.ts:135-139 | a missing account is created empty |
| Clearing.ClearingService.ReserveInitialMargin | Backend/src/clearing/clearing.service.ts:148-153 | moves the amount from balance to initial margin |
| Clearing.ClearingService.ContributeDefaultFund | Backend/src/clearing/clearing.service.ts:268-288 | contribution, fund and balance; a non-positive amount does nothing |
| Clearing.ClearingService.HandleDefault | Backend/src/clearing/clearing.service.ts:224-265 | the book and the reported amount for any shortfall |
| Clearing.ClearingService.ChargeContributors | Backend/src/clearing/clearing.service.ts:246-256 | every contributor with an account pays its share of the loss, once |
| Clearing.ClearingService.SettleMarkToMarket | Backend/src/clearing/clearing.service.ts:156-221 | every position marked, every account moved by its positions' variation, and nothing else; the report per position, with a drained amount that no fund has paid |
| Clearing.TierOneAbsorbs | Backend/src/clearing/clearing.service.ts:186-192 | a breach found by a settlement is absorbed by the first tier and changes no account and no fund |
| ClearingRuns.PairedIsZeroSum | Backend/src/clearing/clearing.service.ts:35-56 | mirrored books are zero-sum per instrument, in quantity, notional, profit and settlement |
| ClearingRuns.EveryRunIsSound | Backend/src/clearing/clearing.service.ts:35-288 | every run keeps positions mirrored, each member's accounts adding up to nothing, and the fund equal to its contributions |
| ClearingRuns.EverySettlementIsZeroSum | Backend/src/clearing/clearing.service.ts:156-196 | every settlement of every reachable book totals zero |
| ClearingRuns.SettlingTelescopes | Backend/src/clearing/clearing.service.ts:160-171 | settling at one price and then another is settling at the other |
| ClearingRuns.OnlyLastPriceMatters | Backend/src/clearing/clearing.service.ts:160-171 | only the last of a series of prices matters |
| ClearingRuns.AcceptExplainsIff | Backend/src/clearing/clearing.service.ts:82-84 | accepting a trade keeps variation equal to positions' profit exactly when replaced positions carry none |
| ClearingRuns.VariationIsExplained | Backend/src/clearing/clearing.service.ts:35-221 | with fresh ids each member's variation is its positions' profit in every reachable book |
| ClearingRuns.WaterfallInOrder | Backend/src/clearing/clearing.service.ts:224-265 | the tiers add up to the shortfall and are drawn on in order |
| ClearingRuns.SharesAddUp | Backend/src/clearing/clearing.service.ts:242-257 | the shares of a mutualised loss add up to it |
| ClearingRuns.MutualiseCharges | Backend/src/clearing/clearing.service.ts:247-256 | each member is charged in proportion to its contribution, and nothing else moves |
| ClearingMoves.FreshTrade | Backend/src/clearing/clearing.service.ts:35-153 | a trade under a new id adds its notional to the buyer's holding, takes it from the seller's, reserves 5% of the value from each, and is worth nothing at its own price |
| ClearingMoves.PriceMove | Backend/src/clearing/clearing.service.ts:160-168 | a price higher by d is worth d times the net holding more to a member |
| ClearingMoves.SettlementPaysTheMove | Backend/src/clearing/clearing.service.ts:156-196 | of two settlements the second credits each member's variation with the price move times its net holding and charges its balance as much |
| ClearingMoves.BreachIff | Backend/src/clearing/clearing.service.ts:186-192 | in every reachable book a member is found in breach exactly if its variation and contributions add up to a gain, and what is reported as drained is that gain plus its initial margin |
| ClearingMoves.ReportAddsUp | Backend/src/clearing/clearing.service.ts:156-196 | a settlement's report has one entry per position in the instrument, adding up for each member to what it was credited |
| ClearingMoves.ContributionOutcome | Backend/src/clearing/clearing.service.ts:268-288 | a positive contribution moves from the member's balance to the fund and to its contributions; no other amount does anything |
| ClearingMoves.DefaultOutcome | Backend/src/clearing/clearing.service.ts:224-265 | a default takes from the fund what it can give beyond the defaulter's margin, charges the contributors the rest in proportion, and leaves every other number, the defaulter's margin included |
| SmokeClearing.SimpleClearing.AcceptTrade | Backend/clearing_smoke.js:17-37 | same book as the service's |
| SmokeClearing.SimpleClearing.ContributeDefaultFund | Backend/clearing_smoke.js:39-47 | contribution, fund and balance, of any sign |
| SmokeClearing.SimpleClearing.Settle | Backend/clearing_smoke.js:49-73 | the book after settling position by position, draining the fund on a breach |
| SmokeClearing.SettleFromCovers | Backend/clearing_smoke.js:52-71 | a settlement keeps the grand total at zero and the fund non-negative, marks every position, and leaves holders within margin or the fund empty |
| SmokeClearing.EveryRunCloses | Backend/clearing_smoke.js:17-73 | so in every reachable book and after every further settlement, given non-negative contributions |
| ClearingMoves.SmokePaysTheMove | Backend/clearing_smoke.js:49-73 | between two settlements of the script a member's variation moves by the price move times its net holding |
| ClearingMoves.SmokeContributionOutcome | Backend/clearing_smoke.js:39-47 | the script moves a contribution of any sign |
| ClearingMoves.SmokeBreachOutcome | Backend/clearing_smoke.js:54-68 | a breach is filled from the fund up to the margin exactly, or with all the fund has |
| Rollups.RollupService.UpsertRollup | Backend/src/analytics/realtime-analytics.service.ts:324-383 | the rollup of the current bucket is recomputed from its snapshots |
| Rollups.RollupService.CaptureAndRollupMetrics | Backend/src/analytics/realtime-analytics.service.ts:36-76 | snapshots and rollups after a tick whose writes fail at any point |
| RollupRuns.BucketStartIsFloor | Backend/src/analytics/realtime-analytics.service.ts:385-410 | dropping seconds, minutes and hours gives the last multiple of the bucket length |
| RollupRuns.BucketsPartition | Backend/src/analytics/realtime-analytics.service.ts:329-337 | an instant lies in exactly the bucket it is assigned to |
| RollupRuns.BucketsNest | Backend/src/analytics/realtime-analytics.service.ts:385-410 | smaller buckets lie within larger ones |
| RollupRuns.RollupMeaning | Backend/src/analytics/realtime-analytics.service.ts:333-351 | an exact rollup's value is the mean of the readings in its interval for the three averaged metrics and their sum for the others |
| RollupRuns.CompleteTickHeals | Backend/src/analytics/realtime-analytics.service.ts:36-57 | a complete tick makes its current rollups exact, whatever failed ticks left |
| RollupRuns.LastTickDecides | Backend/src/analytics/realtime-analytics.service.ts:36-76 | in any run with failures a rollup is exact if the last tick in its bucket completed |
| RollupRuns.HalfTickExactIff | Backend/src/analytics/realtime-analytics.service.ts:36-57 | a tick of any metrics that stops at any write leaves an exact rollup exact just when its snapshot is not in yet, its recomputation is done, or the snapshot adds nothing: zero to a sum, the mean to an average |
| RollupRuns.EveryRunAgrees | Backend/src/analytics/realtime-analytics.service.ts:36-383 | after complete ticks every rollup folds exactly its snapshots and every snapshot is counted |
| RollupRuns.LargerIsSumOfMinutes | Backend/src/analytics/realtime-analytics.service.ts:347-351 | for a summed metric a larger rollup is the sum of its minute rollups |
| Delimited.ToDelimited | Backend/src/analytics/realtime-analytics.service.ts:412-451 | header and rows, one line each |
| Delimited.ExportRoundTrip | Backend/src/analytics/realtime-analytics.service.ts:423-451 | an RFC 4180 reader recovers the header and every cell, for comma and tab and any text |
| Delimited.ExportIsInjective | Backend/src/analytics/realtime-analytics.service.ts:423-451 | two exports are equal exactly when their rows are, up to line breaks in text |
| Delimited.SquashKeepsIff | Backend/src/analytics/realtime-analytics.service.ts:427-428 | text survives unchanged exactly when it has no line feed |
| Delimited.SquashLine | Backend/src/analytics/realtime-analytics.service.ts:427-428 | each line break, with the carriage return before it if there is one, becomes one space |
| Delimited.HeaderLine | Backend/src/analytics/realtime-analytics.service.ts:412-434 | the names of the header line, and one line per row after it |
| Rewards.LiquidityMiningPair.ProvideLiquidity | Backend/src/liquidity-mining/liquidity-mining.service.ts:93-177 | stake, tier and lock, or the reason for refusal |
| Rewards.LiquidityMiningPair.WithdrawLiquidity | Backend/src/liquidity-mining/liquidity-mining.service.ts:182-250 | claims what is pending, then lowers the balance, or refuses |
| Rewards.LiquidityMiningPair.CalculatePendingRewards | Backend/src/liquidity-mining/liquidity-mining.service.ts:255-299 | share of emissions times bonus less debt, or nothing |
| Rewards.LiquidityMiningPair.ClaimRewards | Backend/src/liquidity-mining/liquidity-mining.service.ts:495-548 | records the pending amount as a claim and as debt |
| Rewards.EveryRunIsFair | Backend/src/liquidity-mining/liquidity-mining.service.ts:93-250 | in every run each stake's debt is what it claimed and stays under the ceiling |
| Rewards.LifetimeRewardBound | Backend/src/liquidity-mining/liquidity-mining.service.ts:282-299 | no user is ever paid more than five times one block's emissions |
| Rewards.ClaimLeavesNothing | Backend/src/liquidity-mining/liquidity-mining.service.ts:495-533 | after a claim exactly nothing is pending |
| Rewards.SharesAddUpToEmissions | Backend/src/liquidity-mining/liquidity-mining.service.ts:286-292 | base shares add up to one block's emissions |
| Rewards.LockShortensIff | Backend/src/liquidity-mining/liquidity-mining.service.ts:134-149 | adding to a stake shortens its lock exactly when it names a tier ending earlier |
| RewardMoves.ProvideOutcome | Backend/src/liquidity-mining/liquidity-mining.service.ts:93-177 | when liquidity is accepted, what the stake then holds and for how long it is locked (30, 90 or 180 days), and that nobody else's stake changes |
| RewardMoves.WithdrawOutcome | Backend/src/liquidity-mining/liquidity-mining.service.ts:182-250 | when a withdrawal goes through, what it pays and leaves |
| RewardMoves.ClaimOutcome | Backend/src/liquidity-mining/liquidity-mining.service.ts:495-548 | when a claim goes through, and that it pays just what is pending |
| RewardMoves.BonusByTier | Backend/src/liquidity-mining/liquidity-mining.service.ts:23-28 | the share is doubled, tripled or times five by the tier |
| RewardMoves.TierLocks | Backend/src/liquidity-mining/liquidity-mining.service.ts:125-131 | a stake just locked by a tier can be withdrawn from exactly from the end of the lock on |
| RewardMoves.StakeIsNetFlow | Backend/src/liquidity-mining/liquidity-mining.service.ts:93-250 | in every run a stake is what its user put in less what it took out |
| Drain.ApplicationState.DecrementActiveRequests | Backend/src/lifecycle/application-state.service.ts:94-100 | count, and release of all waiters at zero |
| Drain.ApplicationState.ResolveDrainWaiters | Backend/src/lifecycle/application-state.service.ts:206-210 | every waiter resolved once |
| Drain.ApplicationState.WaitForInflightRequests | Backend/src/lifecycle/application-state.service.ts:126-139 | waits only while requests are in flight |
| Drain.InflightRequest.Finalize | Backend/src/lifecycle/inflight-request.middleware.ts:20-31 | finish and close count a request down once |
| Drain.InflightRequestMiddleware.Use | Backend/src/lifecycle/inflight-request.middleware.ts:9-34 | refusing or admitting a request is the protocol's arrival step |
| Drain.InflightRequestMiddleware.OnFinishOrClose | Backend/src/lifecycle/inflight-request.middleware.ts:21-31 | either event of a response is the protocol's event step |
| Drain.InflightRequestMiddleware.OnSignal | Backend/src/main.ts:108 | so is the begin of a drain |
| Drain.InflightRequestMiddleware.OnDraining | Backend/src/main.ts:109 | and the wait for requests in flight |
| Drain.EventKeepsCount | Backend/src/lifecycle/inflight-request.middleware.ts:20-31 | the first event of an open request lowers a positive count, so the clamp never fires; repeats do nothing |
| Drain.EveryRunCounts | Backend/src/lifecycle/application-state.service.ts:90-139 | over all interleavings the count is the number of admitted unsettled requests, and nobody waits at zero |
| Drain.NoWaiterIsLost | Backend/src/lifecycle/application-state.service.ts:126-139 | whoever waits is released by the time nothing is in flight |
| Drain.NothingAdmittedWhileDraining | Backend/src/lifecycle/inflight-request.middleware.ts:9-16 | once draining, a request whose path does not mention health never opens |
| Drain.IncludesIff | Backend/src/lifecycle/application-state.service.ts:102-108 | the path test finds the text anywhere in the path |
| Drain.AdmittedIff | Backend/src/lifecycle/inflight-request.middleware.ts:9-18 | after any run a new request is let in exactly if no drain has begun or its path mentions health |
| Drain.WaiterOutcome | Backend/src/lifecycle/application-state.service.ts:126-139 | a waiter goes on at once when nothing is in flight and at its timeout in any case |
| AbiRegistry.CompareVersions | Backend/src/abi-registry/abi-registry.service.ts:387-400 | the first difference under zero padding |
| AbiRegistry.CompareIsPreorder | Backend/src/abi-registry/abi-registry.service.ts:387-400 | comparison is a total preorder |
| AbiRegistry.EqualIffPadded | Backend/src/abi-registry/abi-registry.service.ts:387-400 | versions compare equal exactly when they agree under zero padding |
| AbiRegistry.NewerIff | Backend/src/abi-registry/abi-registry.service.ts:387-400 | a version is newer exactly if the first part in which the two differ is larger |
| AbiRegistry.OneMorePart | Backend/src/abi-registry/abi-registry.service.ts:387-400 | a further part decides by its sign against nothing, so a missing part is zero |
| AbiRegistry.AbiRegistryStore.UpsertRegistry | Backend/src/abi-registry/abi-registry.service.ts:79-156 | current version, flags and rewritten or added entry |
| AbiRegistry.AbiRegistryStore.ResolveRegistryVersion | Backend/src/abi-registry/abi-registry.service.ts:254-281 | named, else current, else newest |
| AbiRegistry.ResolveFinds | Backend/src/abi-registry/abi-registry.service.ts:271-278 | resolution fails only without versions, and otherwise returns the named, the current, or one no other exceeds |
| AbiRegistry.NewestIsFirst | Backend/src/abi-registry/abi-registry.service.ts:271-278 | among equally new versions the first listed is chosen |
| AbiRegistry.UpsertOutcome | Backend/src/abi-registry/abi-registry.service.ts:79-156 | the version is stored with the given schema and flag, every other version is as before, and marking one as current takes the flag from all others |
| AbiRegistry.EveryRunHasOneCurrent | Backend/src/abi-registry/abi-registry.service.ts:122-156 | after any upserts at most one version is current |
| AbiRegistry.StaysFlaggedIff | Backend/src/abi-registry/abi-registry.service.ts:122-156 | the registry's current version stays flagged exactly unless it is rewritten unmarked |

## Left out

- Logging, text messages, error texts and failure reasons, dates of record keeping, and generated ids.
- JSON serialisation, hashing, Decimal and floating-point rounding: values are exact.
- The map of named circuits: one circuit is modelled, since circuits do not interact.
- The breaker's fallbacks and error conversion beyond their counters.
- Cache hot-key boosts, warming and hit statistics; a value's time to live only appears as forgetting at any moment.
- Expiry of a tag's version key in Redis after a day, and any other loss of it: the freshness results exclude it.
- The text of cache keys: a key is its base and tag versions, and `cacheKey`, which sorts tags, is not called.
- CacheOrigin.NoStaleValueAfterInvalidation: holds for runs without a first-use SET over a later version, which is the one excluded step; CacheRollback shows why. After it the same version number is issued again for a later bump, so versions no longer tell bumps apart and no exact condition on it is given.
- IndexerRuns.CaughtUpMeansOnePass: assumes events sorted by ledger, replay-safe statements, pages ending on ledger boundaries, and a non-zero cursor; IndexerRuns.NewDatabaseMeansOnePass treats a new database. A reset after a "start is before" error ends these runs; IndexerGaps has what it loses.
- IndexerRuns.NewDatabaseMeansOnePass: the first answer has events; IndexerGaps.EmptyFirstAnswerForgetsStart says what happens otherwise.
- Indexer.EventDatabase.Execute: serialising an event's data always succeeds, where the code throws at the event's first statement when the data holds a 64-bit or wider integer.
- Decoding of XDR values and the RPC client of the indexer.
- Margin.MarginAccount.LiquidateAccount: symbols without a price are excluded, where the code divides by zero; prices do not change during a call, and symbols are taken as upper case.
- A loan repaid in full stays in the model as a row that owes nothing, where the code marks it liquidated and skips it.
- Liquidation records, liquidator addresses and fees; pledging and substituting collateral.
- Margin.MarginAccount.Monitor: one account; the loop over accounts has no interaction between them.
- Retention.RetentionTable.ExecuteRetentionLoop: the loop has no bound of its own, so it is stated for every number of turns; holds, clock and inserts are fixed during a run.
- Object storage keys and shred digests, which depend on the wall clock.
- Clearing.ClearingService.SettleMarkToMarket: calls are serialised, so no await lets another in between, and the database mirror is not modelled.
- Auctions and recovery of the clearing service, which only record or log.
- SmokeClearing.EveryRunCloses: assumes non-negative contributions, which the script does not check.
- Rollups in local time: minutes and hours are those of UTC.
- Collection of the live metrics, dashboards and queries over rollups.
- Retention deletes snapshots under the rollups; the two models are separate.
- Liquidity mining: creation of pairs, governance locks and statistics; emissions and the active flag are fixed, and claims, deposits and withdrawals are taken as serialised.
- Timeouts of the drain are steps of their own that resolve a waiter; the WebSocket drain and readiness reports are left out.
- Conversion of version strings to numbers, and the schemas stored with ABI versions.
- Stellar and Soroban contracts, identity, compliance, backup, deployment, GraphQL and other wiring.

# The gas station, modelled and proved

The gas station lends the gas coins of a sponsor address to transactions. This project models its three
cooperating state machines, and its initializer lock, in Dafny, and proves what they keep over whole runs.

**The pool.** `Text` and `CoinText` are the text formats that the Rust code and the Lua scripts share. `Redis`
is one map from strings, with the commands the scripts use. `Scripts` holds the Lua scripts as imperative
methods on it, each proved to refine a function on an abstract pool (`GasPool`) and to leave every other
sponsor's cells alone. `Storage` is the Rust side: it formats, calls and parses. `GasStation` is a state
machine of any number of servers over that pool and a chain; every step is one atomic script, one chain
operation or one change made by others. `Custody` proves its invariant and `Runs` the results.
`GasPoolCore` is the server's own code, step by step, with an `Await` between steps in which anything may
happen that leaves the task's own record alone; every method is proved to take steps of the machine, so what
`Runs` proves holds of it.

**The splitter.** `Splitter` has the arithmetic of one split. `SplitRuns` is the worklist with every task
concurrent: spawning, pushing a handle, popping, splitting and awaiting are separate steps in any order.
`Initializer` is the code, proved to take those steps with anything the other tasks may do in between.

**The object locks.** `ObjectLocks` has the inputs, the owners and what a call may conclude from them. `LockRuns`
interleaves any number of calls at every lookup, answer and lock operation, with evictions, cache updates and
progress of the chain. `LockManager` is the code, proved to take those steps in the same way.

**The initializer lock.** `InitLock` is a timed machine: clock readings happen before the script that uses
them. `InitServer` is the code that takes its steps.

## What is assumed

These are contracts on the environment; the code relies on them and does not enforce them.

- An execution pays with exactly the coins of its reservation (README.md:51-52).
  `Runs.PaymentMustBeTheReservation` proves that custody survives exactly when that is so.
- Coins that the initializer adds are not tracked by the pool at that moment, and are as the chain has them.
- The address is dedicated to the pool (README.md:156-159): nobody else moves a tracked coin.
- Chain reads are current. When an execution ends with an error, the chain has settled: it ran or never will.
- The chain merges the payment into its first coin, charges the net usage, and never brings an id back.
- The budget of a request is positive (src/rpc/rpc_types.rs:25); the statistics are initialised before use
  (src/storage/mod.rs:119); fewer than 2^64 reservations are made.
- A split pays at most its budget, makes the coins `split_n` makes, and a failed attempt changes nothing.
- Text of ids and digests is not empty and has no comma; a sponsor's text has no colon.
- An object never loses its past versions and their owners; the owners' query answers for every object it is
  asked about, or fails (src/sui_client.rs:294-304).

## What does not hold

- A reservation of budget zero succeeds in the script, with no coins, and the Rust side reports an error: the
  record stays behind (`Storage.ZeroBudgetRecordsNothingReserved`). The expiry that finds it has run in Redis
  when parsing the empty text panics, so every other reservation of that batch is lost: settled, with its ids in
  no answer (`Storage.ZeroBudgetRuinsAnExpiry`). An expiry returns exactly when its batch has no empty
  reservation (`Storage.ExpireCoins`), and positive budgets never make one.
- src/storage/mod.rs:53 promises that nobody else acquires the initializer lock until it expires. Release does
  not check the owner. The lock covers every working server throughout a run exactly when nobody in it releases
  while another one works, and then the promise is kept (`InitLock.PromiseHoldsWithoutOtherReleases`); in any state
  an acquisition breaks it exactly when the lock is older than the reading and a working server's lapse is not
  (`InitLock.PromiseBreaksExactly`). `InitLock.LateReleaseFreesAnothersLock` is a run that breaks it.
- Two initializations can overlap. From the start, they never do in a run exactly when no acquire script in it
  runs with a clock reading past the lapse of a server that still works (`InitLock.ExclusiveExactly`). Only
  a holder that overstays makes that possible, and then even servers within their own time may overlap.
- An input whose version is ahead of the chain is judged by the latest version's owner, as the comment at
  src/object_locks.rs:214-218 says: `LockRuns.AheadOfTheChain` is such a run. What is found is what a direct lookup
  gives exactly when no input has a version the chain asked has never had while an address owns the object's
  latest version (`LockRuns.CacheIsExactlyTransparent`).
- The i64 arithmetic of the derived balance may wrap, and the result is exact all the same whenever the coin's
  balance on chain is a u64: `GasStation.DerivedBalanceIsExact`.
- The u64 arithmetic of the split threshold wraps exactly when gas cost and target together reach 2^63
  (`Splitter.ThresholdWrapsExactly`); the splitter's results take a configuration below that.

## Model

| member | source | states |
|---|---|---|
| Text.DecReadsBack | src/storage/redis/mod.rs:105-107 | a printed number parses back to itself, and prints as digits |
| Text.NumberRoundTrip | src/storage/redis/lua_scripts/reserve_gas_coins.lua:53-60 | what SET stores for an integer, `tonumber` reads back |
| Text.SplitOfJoin | src/storage/redis/mod.rs:196-199 | splitting the joined ids gives the ids back, in order |
| Text.JoinOfSplit | src/storage/redis/mod.rs:196-199 | joining the fields of any text gives the text back |
| Text.CommasCountFields | src/storage/redis/lua_scripts/get_reserved_coin_count.lua:19-22 | commas plus one is the number of ids, for every non-empty list of comma-free ids |
| Text.ScanMatchesSplit | src/storage/redis/lua_scripts/reserve_gas_coins.lua:32-37 | on every text the two comma scans of the script find the first and second field that the Rust split finds |
| CoinText.CoinRoundTrip | src/storage/redis/mod.rs:100-114 | decoding an encoded coin gives exactly that coin |
| CoinText.EncodedFields | src/storage/redis/mod.rs:146-160 | the encoded coin splits into its four fields, and the script's scans read its balance and id |
| GasPool.ReservationIsExact | src/storage/redis/lua_scripts/reserve_gas_coins.lua:28-49 | a reservation succeeds iff the first 256 coins (or all) reach the budget; it takes the shortest prefix that does; a failure changes nothing |
| GasPool.GrantedWithin256 | src/storage/redis/lua_scripts/reserve_gas_coins.lua:18-28 | a budget is granted iff some prefix of at most 256 coins is worth it |
| GasPool.ReservationRecords | src/storage/redis/lua_scripts/reserve_gas_coins.lua:51-67 | a grant records its ids and deadline under the next number and lowers both statistics by what it takes; flag and lock stay |
| GasPool.ReadyIsExact | src/storage/redis/lua_scripts/ready_for_execution.lua:14-20 | taking needs the reservation live, removes it, and touches nothing else |
| GasPool.InitStatsIsExact | src/storage/redis/lua_scripts/init_coin_stats_at_startup.lua:13-37 | missing statistics become those of the list; present ones and all else stay |
| GasPool.ReservationMovesIds | src/storage/redis/lua_scripts/reserve_gas_coins.lua:62-67 | the ids that leave the queue are those of the new reservation, under an id never used before |
| GasPool.StatsStayTrue | src/storage/redis/lua_scripts/init_coin_stats_at_startup.lua:13-37 | every operation keeps count and total those of the queue, and the start-up initialiser then changes nothing |
| GasPool.ExpiryIsExact | src/storage/redis/lua_scripts/expire_coins.lua:14-27 | expiry settles exactly the live reservations due by now, gathers each of their ids once, and leaves the others, the list, the statistics, the flag and the lock as they were |
| GasPool.ExpiryMovesIds | src/storage/redis/lua_scripts/expire_coins.lua:18-25 | the ids gathered are exactly those that leave the reservations |
| GasPool.StaleEntriesHaveNoEffect | src/storage/redis/lua_scripts/ready_for_execution.lua:14-20 | the entries that `ready` leaves in the expiration set never change what an expiry does |
| Redis.KeysNeverCollide | src/storage/redis/lua_scripts/reserve_gas_coins.lua:20-22 | named keys and numeric reservation keys of all sponsors are different strings |
| Redis.CellsDetermineKeyspace | src/storage/redis/lua_scripts/reserve_gas_coins.lua:65-66 | the cells of all sponsors say everything there is in the keyspace |
| Redis.OtherSponsorsUnaffected | src/storage/redis/lua_scripts/expire_coins.lua:19 | a script that writes its own sponsor's cells leaves every other sponsor's pool as it was |
| Scripts.PopCoins | src/storage/redis/lua_scripts/reserve_gas_coins.lua:28-41 | the pop loop stops after the shortest prefix that reaches the budget, or at 256 coins, or at the end |
| Scripts.PushBack | src/storage/redis/lua_scripts/reserve_gas_coins.lua:45-47 | pushing the popped coins in reverse restores the list, order included |
| Scripts.TakeCoins | src/storage/redis/lua_scripts/reserve_gas_coins.lua:28-49 | the pops and the rollback together: the list loses the granted prefix, or nothing at all |
| Scripts.RecordGrant | src/storage/redis/lua_scripts/reserve_gas_coins.lua:51-67 | the writes after the pops leave the cells that represent the new pool |
| Scripts.ReserveGasCoins | src/storage/redis/lua_scripts/reserve_gas_coins.lua:14-69 | the script refines the abstract reservation; when it fails the whole database is as before |
| Scripts.ReadyForExecution | src/storage/redis/lua_scripts/ready_for_execution.lua:11-20 | it takes the reservation iff it is live, and otherwise fails and changes nothing |
| Scripts.CollectExpired | src/storage/redis/lua_scripts/expire_coins.lua:16-25 | of the listed reservations those still live are deleted and their ids collected in order; taken ones are skipped |
| Scripts.ExpireCoins | src/storage/redis/lua_scripts/expire_coins.lua:9-29 | the script refines the abstract expiry and returns one text for each lapsed live reservation |
| Scripts.AddNewCoins | src/storage/redis/lua_scripts/add_new_coins.lua:13-47 | the lines are appended, total and count rise by theirs, the flag is 1 if there are any and else as before, and no other cell changes |
| Scripts.InitCoinStatsAtStartup | src/storage/redis/lua_scripts/init_coin_stats_at_startup.lua:9-39 | missing statistics are computed from the list; with both present the database does not change |
| Scripts.SumLines | src/storage/redis/lua_scripts/init_coin_stats_at_startup.lua:25-35 | the sum of the scanned balances is that of the coins |
| Scripts.GetReservedCoinCount | src/storage/redis/lua_scripts/get_reserved_coin_count.lua:8-26 | counting commas counts the ids of all live reservations, and one for each that is empty; so it is the number of ids iff none is |
| Scripts.AcquireInitLock | src/storage/redis/lua_scripts/acquire_init_lock.lua:16-28 | it acquires iff there is no lock or the lock lapsed before the time given, and then the lock is that time plus the duration |
| Scripts.ReleaseInitLock | src/storage/redis/lua_scripts/release_init_lock.lua:8-11 | the lock is zero afterwards, whoever held it |
| Storage.DecodeOfEncode | src/storage/redis/mod.rs:144-160 | every list of coins the storage writes it reads back, in order |
| Storage.ExpiredIdsAreGathered | src/storage/redis/mod.rs:195-199 | the parsed ids are the expired reservations' ids iff no listed reservation is empty |
| Storage.ReserveGasCoins | src/storage/redis/mod.rs:70-126 | it succeeds iff the script grants and the budget is positive, with the granted id and coins; a failure for a positive budget leaves the database alone |
| Storage.AddNewCoins | src/storage/redis/mod.rs:144-183 | formatting and the script together append the coins, raise both statistics by theirs, set the flag if there are any, and change no other cell |
| Storage.ExpireCoins | src/storage/redis/mod.rs:185-203 | every lapsed live reservation is settled; their ids are returned iff none of them is empty, and otherwise parsing panics |
| Storage.ZeroBudgetRecordsNothingReserved | src/storage/redis/lua_scripts/reserve_gas_coins.lua:43-67 | a budget of zero is granted no coins, and an empty reservation is recorded |
| Storage.EmptyReservationLosesItsBatch | src/storage/redis/mod.rs:190-199 | an expiry whose batch holds an empty reservation returns nothing although the whole batch is settled; without one it returns |
| Storage.ZeroBudgetRuinsAnExpiry | src/storage/redis/mod.rs:92-99 | after a zero-budget request the first expiry past its deadline loses every reservation due by then |
| GasStation.DerivedBalanceIsExact | src/gas_pool/gas_pool_core.rs:467-484 | casting to i64, subtracting and casting back gives total less net usage whenever that is a u64, even if a step wraps |
| GasStation.NoOverflowInDerivation | src/gas_pool/gas_pool_core.rs:468 | no cast or subtraction of the derivation wraps iff the total and the result are below 2^63 |
| Custody.RereadFindsHeld | src/gas_pool/gas_pool_core.rs:165-170 | the node's answer, in any order, lists exactly the coins the task answers for, and no more than it asked about |
| Custody.StepKeepsInv | src/gas_pool/gas_pool_core.rs:118-178 | every step of every server keeps custody, agreement with the chain, statistics, settlement records and ledger |
| Custody.ReachableWorldsKeepInv | src/storage/mod.rs:16-26 | so do all runs, of any number of servers |
| Runs.CustodyPartition | src/storage/mod.rs:22-26 | in every run each tracked coin is in exactly one place (queue, one reservation, one task), the queue is as the chain has it, the statistics are the queue's |
| Runs.CountersAddUp | src/gas_pool/gas_pool_core.rs:251-257 | the world's counters are sums over the steps of the run: coins given, net usages charged without a report, and net usages reported, less those about to be recorded |
| Runs.NoCoinIsForgotten | src/gas_pool/gas_pool_core.rs:118-178 | in every run each coin ever given to the pool, and no other, is in custody and on chain, or has been merged away and is not on chain |
| Runs.LedgerConservation | src/gas_pool/gas_pool_core.rs:251-257 | in every run the coins in custody are worth the sum of the coins given less the sum of the net usages charged; the reported ones have all been recorded but those about to be |
| Runs.InitializedExactly | src/storage/redis/lua_scripts/add_new_coins.lua:31-34 | in every run the pool is initialized iff some step has put a coin into the queue |
| Runs.NothingUnrecorded | src/gas_pool/gas_pool_core.rs:160-171 | when failed calls leave the chain alone custody is worth what was given less what was recorded or is about to be |
| Runs.LeavesOnlyBySmashing | src/gas_pool/gas_pool_core.rs:174-178 | a coin leaves custody only when the chain merges it into another payment coin |
| Runs.SmashedCount | src/gas_pool/gas_pool_core.rs:174 | the smashed count does not underflow on either branch: after a success it is all payment coins but one, after a failure the coins the chain no longer has |
| Runs.SettlementSmashesAllButOne | src/gas_pool/gas_pool_core.rs:118-135 | a settlement merges all payment coins but the first, each a different one |
| Runs.NeverReservedTwice | src/storage/mod.rs:23 | no coin is in two reservations, nor in one and in the queue |
| Runs.PaymentMustBeTheReservation | src/gas_pool/gas_pool_core.rs:107-120 | taking a reservation and going on with a payment keeps custody iff the payment is the reservation's coins |
| Runs.RecordsAreTheSteps | src/storage/redis/lua_scripts/ready_for_execution.lua:14-20 | which reservations a world calls issued, taken or expired is what the grants, takings and sweeps of the run did |
| Runs.StaysSettled | src/storage/redis/lua_scripts/ready_for_execution.lua:14-20 | no step revives a settled reservation or changes how it was settled |
| Runs.SettledAtMostOnce | src/storage/redis/lua_scripts/expire_coins.lua:14-27 | in every run a reservation that stopped being live was taken or expired, never both, and stays so; ids are never reused |
| Runs.ExpiresOnTime | src/storage/redis/lua_scripts/expire_coins.lua:14-29 | a live reservation expires with the first sweep at or after its deadline, and not before |
| Runs.ReachablePoolsArePrintable | src/storage/redis/mod.rs:146-160 | in every reachable world the text formats can carry the pool |
| Runs.NoStepsMeanwhile | src/gas_pool/gas_pool_core.rs:118-178 | while the record of a task stays as it is the task has taken no step, however others interleave |
| GasPoolCore.TotalIsChainSum | src/gas_pool/gas_pool_core.rs:272-279 | the sum over the node's answer, in any order, is the chain's balance of the payment |
| GasPoolCore.SumBalances | src/gas_pool/gas_pool_core.rs:274-278 | the running u64 sum is the true sum modulo 2^64 |
| GasPoolCore.GasPoolServer.ReserveGas | src/gas_pool/gas_pool_core.rs:69-94 | at the usage cap it fails and changes nothing; otherwise it takes one reservation step of the machine and returns its grant, and without a grant nothing changed |
| GasPoolCore.GasPoolServer.AddFunds | src/gas_pool_initializer.rs:308-310 | coins the pool does not track are appended to the queue, as one funding step of the machine |
| GasPoolCore.GasPoolServer.TakeReservation | src/gas_pool/gas_pool_core.rs:118-121 | goes on iff the reservation is live; a new task then answers for the payment |
| GasPoolCore.GasPoolServer.GetLatestGasObjects | src/sui_client.rs:93-147 | exactly the listed objects that exist, each once, as the chain has them |
| GasPoolCore.GasPoolServer.CountCoins | src/gas_pool/gas_pool_core.rs:123-131 | the total read before execution is the chain's, modulo 2^64 |
| GasPoolCore.GasPoolServer.ExecuteOnChain | src/gas_pool/gas_pool_core.rs:237-244 | with effects the step taken is a reported settlement with them; without, a rejection or an unreported settlement, and the task rereads |
| GasPoolCore.GasPoolServer.UpdateUsage | src/gas_pool/gas_pool_core.rs:251-257 | the net usage of the effects is added to the recorded usage |
| GasPoolCore.GasPoolServer.ExecuteTransactionImpl | src/gas_pool/gas_pool_core.rs:237-270 | its own steps are a reported settlement and the record of its usage, exactly when it has effects; else one of a rejection or an unreported settlement |
| GasPoolCore.GasPoolServer.GetCoinsAfterTx | src/gas_pool/gas_pool_core.rs:452-484 | the coin derived from the total read before and the net usage is the coin on chain |
| GasPoolCore.GasPoolServer.RereadCoins | src/gas_pool/gas_pool_core.rs:165-170 | the coins to release are those of the ids that the chain still has, at most as many as asked for; the others are smashed |
| GasPoolCore.GasPoolServer.ReleaseGasCoins | src/gas_pool/gas_pool_core.rs:376-385 | the coins are appended to the queue and the task holds nothing any more |
| GasPoolCore.GasPoolServer.ExecuteTransaction | src/gas_pool/gas_pool_core.rs:96-198 | a call on a live reservation, whatever happens at its awaits, succeeds iff its usage was recorded, and its own steps are those of a reported execution and no others; otherwise it failed, and reread. It ends with exactly the payment coins that still exist at the end of the queue, as the chain has them, with the count of those that do not, and with the reservation settled for good; on any other reservation it changes nothing |
| GasPoolCore.GasPoolServer.UnlockExpired | src/gas_pool/gas_pool_core.rs:413-429 | a round sweeps exactly the lapsed reservations, none of which is live again, and exactly their coins that still exist are at the end of the queue, as the chain has them |
| Splitter.SplitBounds | src/gas_pool_initializer.rs:73-82 | for a coin over the threshold: at least two and at most 2000 children, the budget fits, each new coin is worth the target |
| Splitter.SplitIntoIs | src/gas_pool_initializer.rs:73-82 | what is computed is the one even split: as many children as whole shares of gas cost and target fit, at most 2000, each but the last an even share of the balance less the budget rounded down, the last what is left |
| Splitter.SplitIsSound | src/gas_pool_initializer.rs:157-170 | the children sum to the parent less the net usage, each worth at least the target and less than the parent |
| Splitter.SplitWeighs | src/gas_pool_initializer.rs:157-170 | a split conserves value and lowers both the splits and the steps still possible |
| Splitter.SplitsBound | src/gas_pool_initializer.rs:319-326 | the measure that every split lowers by one is, for a list of coins, at most total over target |
| Splitter.ThresholdWrapsExactly | src/gas_pool_initializer.rs:49 | the threshold's u64 addition and doubling wrap iff gas cost and target together reach 2^63 |
| Initializer.CoinSplitEnv.EnqueueTask | src/gas_pool_initializer.rs:48-60 | a coin up to the threshold comes back; for a larger one a task is spawned and then its handle pushed, with anything in between |
| Initializer.SplitTransaction | src/gas_pool_initializer.rs:73-82 | the balances computed are those of an even split: k children with k shares fitting and k + 1 not (or k = 2000), each but the last worth (balance - budget) / k rounded down, all together the balance less the net usage |
| Initializer.CoinSplitEnv.SplitOneGasCoin | src/gas_pool_initializer.rs:71-173 | whatever attempts fail first and whatever others do, one even split of the coin happens, and the result is exactly its children up to the threshold |
| Initializer.CoinSplitEnv.AwaitTask | src/gas_pool_initializer.rs:331-336 | awaiting a task ends, under any schedule, with what it kept |
| Initializer.CoinSplitEnv.SplitGasCoins | src/gas_pool_initializer.rs:318-345 | under every schedule the code ends with every task collected; the result is the initial total less the net usages of the splits that ran, at most total over target of them; it holds exactly the coins up to the threshold that were there or that a split left, each as often, and every new one is worth the target |
| Initializer.KeptFacts | src/gas_pool_initializer.rs:48-60 | exactly the coins up to the threshold are kept, each as often as it was there |
| Initializer.AddInChunks | src/gas_pool_initializer.rs:308-310 | adding the result in chunks of 5000 leaves the pool that adding all of it leaves |
| SplitRuns.UncollectedNeedsAnEarlierOne | src/gas_pool_initializer.rs:56-59 | with the queue empty and nothing awaited, no task is uncollected: its handle would be with an earlier uncollected one |
| SplitRuns.StepKeepsInv | src/gas_pool_initializer.rs:47-60 | every step of any task keeps value, split bound, sizes, and each live task's handle in exactly one place |
| SplitRuns.DrainIsComplete | src/gas_pool_initializer.rs:331-336 | under every schedule, when the loop finds the queue empty every task ever spawned has been awaited and collected |
| SplitRuns.RunsAddUp | src/gas_pool_initializer.rs:157-170 | the counters are the number and the net usages of the split steps, and no coin up to the threshold is lost or made twice on the way |
| SplitRuns.SplitsAreFew | src/gas_pool_initializer.rs:319-326 | at every moment of every schedule at most total over target splits have run |
| SplitRuns.FinishedSplitting | src/gas_pool_initializer.rs:318-345 | under every schedule the result is the initial total less the net usages of the splits that ran, no more than the initial total; it holds exactly the coins up to the threshold that were there or that a split left, each as often; splits and sizes are bounded |
| SplitRuns.SplittingTerminates | src/gas_pool_initializer.rs:328-336 | every schedule has at most 7 * (total / target) + coins + 3 steps, and is stuck iff the initializer has stopped |
| SplitRuns.NoSplitWraps | src/gas_pool_initializer.rs:158-169 | when the initial total fits in i64 no balance operation of any split in any run wraps |
| ObjectLocks.NonGasIsExact | src/object_locks.rs:131-153 | the objects considered are exactly the owned or immutable inputs that do not pay for gas |
| ObjectLocks.FilterIsExact | src/object_locks.rs:214-225 | an answer judged by the chain asked is a direct lookup's iff no input has a version that chain has never had while an address owns the latest one |
| LockManager.ObjectLockGuard.RemoveLocks | src/object_locks.rs:47-58 | exactly the guard's objects are removed |
| LockManager.ObjectLockGuard.Drop | src/object_locks.rs:60-73 | dropping a live guard is the machine's drop of its call |
| LockManager.ObjectLockManager.FirstLocked | src/object_locks.rs:117-122 | the check passes iff none of the objects is locked, and otherwise names the first locked one |
| LockManager.ObjectLockManager.Begin | src/object_locks.rs:97-112 | the read check passes iff no input is locked |
| LockManager.ObjectLockManager.ScanCache | src/object_locks.rs:167-198 | the loop over the inputs takes the machine's scan steps, whatever the cache holds or loses meanwhile |
| LockManager.ObjectLockManager.AbsorbAnswer | src/object_locks.rs:204-225 | the loop over the answer, in any order, takes the machine's steps and ends with nothing left to ask for |
| LockManager.ObjectLockManager.FilterOwnedObjects | src/object_locks.rs:163-228 | for distinct inputs the answer is exactly those that the chain asked judges to be owned; it rejects only versions left behind |
| LockManager.ObjectLockManager.LockOwned | src/object_locks.rs:114-123 | the insertion happens iff none of the objects is locked at that step |
| LockManager.ObjectLockManager.TryAcquireLocks | src/object_locks.rs:90-129 | a call is a run of the machine: on success the objects judged owned were all free at the insertion and are all locked after it; it fails only with inputs that cannot be computed, an input that is locked, an input left behind, or a node that was asked and failed, and then the locks stay as they are |
| LockManager.ObjectLockManager.UpdateCachePostExecution | src/object_locks.rs:234-254 | every mutated object that is an owned or immutable input of the transaction and does not pay is cached at its new version and owner; every other entry is as it was |
| ObjectLocks.UpdatedIsExact | src/object_locks.rs:240-253 | every mutated object that the transaction names as an owned or immutable input that does not pay is cached at its new version and owner; every other entry is as it was |
| ObjectLocks.SortAnswer | src/object_locks.rs:204-225 | an answer that is not newer than the input settles it by the latest owner |
| LockRuns.LocksAreTheLiveGuards | src/object_locks.rs:96-128 | in every run an object is locked iff a live guard holds it, and no two live guards share one |
| LockRuns.LockingIsAtomic | src/object_locks.rs:114-128 | the write check succeeds iff no live guard holds one of the objects at that step, however stale the read check; a failure changes no lock |
| LockRuns.DroppingFreesItsOwn | src/object_locks.rs:60-73 | dropping a guard frees exactly its own objects and none of another's |
| LockRuns.RejectionsAreSound | src/object_locks.rs:173-213 | in every run the cache is true of the chain's history and an out of date error means the chain has a newer version |
| LockRuns.CallsAreJudged | src/object_locks.rs:163-228 | in every run a call that gets through the filter found exactly the inputs that the chain it asked judges to be owned |
| LockRuns.CacheIsExactlyTransparent | src/object_locks.rs:163-228 | in every run what it found is a direct lookup's iff no input has a version the chain asked has never had while an address owns the latest one |
| LockRuns.CacheIsTransparent | src/object_locks.rs:163-228 | for versions that existed when the call began it found exactly the address-owned inputs a direct lookup gives |
| LockRuns.AheadOfTheChain | src/object_locks.rs:214-218 | a run in which an input ahead of the chain is found although no address owns that version |
| LockRuns.CachedInputsAreNotAskedFor | src/object_locks.rs:170-200 | in every run a call whose inputs are all cached at their versions never asks the node, and fails only for a lock |
| LockRuns.ScanIsExact | src/object_locks.rs:171-197 | an input older than the cache fails at once, one at the cached version is settled and not asked for, any other is asked for |
| LockRuns.AbsorbIsExact | src/object_locks.rs:204-225 | an answer newer than the input fails and leaves the cache; any other is cached and settles the input |
| InitLock.ExclusiveExactly | src/gas_pool_initializer.rs:260-311 | in every run initializations never overlap iff no acquire script runs with a reading past the lapse of a server that still works |
| InitLock.NoOverlap | src/gas_pool_initializer.rs:260-311 | when every holder finishes before its lock lapses no two initializations overlap, in any run |
| InitLock.OverlapExactlyAfterLapse | src/storage/redis/lua_scripts/acquire_init_lock.lua:21-28 | a step loses exclusion iff it is an acquisition with a reading past a working server's lapse; every other step keeps the invariant |
| InitLock.CoveredExactly | src/storage/mod.rs:51-56 | a step keeps the lock covering all working servers iff it is not a release while another server works, and where it covers them every acquisition comes after their lapses |
| InitLock.PromiseHoldsWithoutOtherReleases | src/storage/mod.rs:51-56 | in every run the lock always covers all working servers iff nobody releases while another one works, and then nobody acquires before the lapse |
| InitLock.PromiseBreaksExactly | src/storage/redis/lua_scripts/acquire_init_lock.lua:21-28 | in any state an acquisition breaks the promise iff the lock is older than the reading and a working server's lapse is not |
| InitLock.LateReleaseFreesAnothersLock | src/storage/redis/lua_scripts/release_init_lock.lua:11 | a run in which, after a late release, an acquisition breaks the promise and two servers overlap that are both in time |
| InitServer.GasPoolInitializer.RunAcquire | src/storage/redis/mod.rs:241-255 | the script acquires iff there is no lock or it lapsed before the reading; the server then works until twelve hours after its reading |
| InitServer.GasPoolInitializer.RunOnce | src/gas_pool_initializer.rs:252-316 | a round reads the clock, and ends with its release if it acquired and with the refused acquisition if not |

## Left out

- The RPC server and client, the command line, configuration, metrics, logging, benchmarks: no deep property.
- Signing, the key management sidecar, and the check that a transaction does not use the gas coin: foreign calls.
- Faucet mode: its usage is the absolute value of summed balance changes, for which no ledger holds.
- The date logic of the usage cap (src/gas_pool/gas_usage_cap.rs); only the stream of recorded usages is modelled.
- `total_coin_count`: a progress log; `result.len() - 1` can wrap when every child is queued again.
- Crashes between taking coins and releasing them: the code does not recover coins in flight.
- Retries of storage calls: a call that reports an error is assumed not to have taken effect.
- Which coins the initializer picks up, and how it calibrates the gas cost: parameters of the model; between acquiring and releasing its lock, a round is Initializer's and AddInChunks's work.
- Lua number representation and library availability: integers, with totals below 2^53.
- Scripts run with a statistic missing: they would fail in arithmetic; initialisation comes first.
- The parsers of object ids and digests: any non-empty text without a comma stands for itself.
- The order in which Redis lists entries with one score: left open, and nothing proved depends on it.
- The poisoned branch of the read-write lock, and the cache's own workings: any entry may vanish at any lookup.
- The branch for a response without effects after a success (src/gas_pool/gas_pool_core.rs:147): an error comes first.
- GasPoolCore.GasPoolServer.TakeReservation: only for a payment that is the reservation's coins, because custody survives exactly then (Runs.PaymentMustBeTheReservation); nothing is said of what follows another payment.
- GasPoolCore.GasPoolServer.ExecuteTransaction: likewise only for a payment that is the reservation's coins.
- GasPoolCore.GasPoolServer.ExecuteTransactionImpl: the locks, the signature and the cache update around it are LockManager's or foreign calls; failing there is an execution the chain never saw.
- GasPoolCore.GasPoolServer.ReserveGas: the date on which the daily usage starts again at zero is a parameter's business.
- GasPoolCore.GasPoolServer.Others: what others do is bounded only by the machine's steps, and keeps this task's own record.

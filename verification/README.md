# Scheduler and process-tree proofs

A Dafny model of the hardest parts of the Linux scheduler sources in this repository, of its weighted
round-robin class and of its `ptree` system call, with proofs of what each of them keeps in every run.
`dafny verify dfyconfig.toml` checks all of it.

Configuration: SMP, 64 bit, fair group scheduling and CFS bandwidth on. RT lending and the RT priority array are
modelled without RT group scheduling, RT admission with it. Code under one lock is one step, except in the two
locking protocols, which are state machines over their single steps under sequential consistency.

| file | what it models | main results |
|---|---|---|
| TaskGroups | the group tree and the goto walk over it | the walk is depth-first search with the first non-zero result ending it; the calls about a subtree are one stretch between its Down and its Up |
| CfsHierarchy, CfsRunqueues | enqueue, dequeue, throttle and unthrottle over a tree of CFS queues | after any run every queue, entity and counter is what the tasks and the throttled flags alone determine |
| ThrottleClock | nested throttling of the per-group clock | counts are right and a clock stands still exactly while something above is throttled |
| CfsBandwidth | the runtime pool, its slices and its timers | in any run, what is charged and held is at most what was held and one quota per refill; what a charge leaves of a stale or a current balance |
| CalcDelta | fixed-point scaling and slices | exactly when the result is never above the share, by how much it is below, slices fit the period |
| CpuLoad | the decaying load averages, in 64 bits | the table's factors are exact floors; decay is never above the exact value and at most seven roundings below; averages are bounded by their inputs and arrive under constant load |
| Timeline | the tree of entities by virtual runtime, joining, leaving and the pick | in order with ties by arrival; moving keeps the distance from min_vruntime; the pick is within a granularity of the best |
| LoadBalance | detaching, attaching and the two jumps of `load_balance` | no task lost; at most twice the imbalance plus one; every look takes exactly what is worth taking; when each outcome is reported; both jumps end |
| RtAdmission | RT bandwidth of nested groups | after any run the ratios of independent groups are within the root's; so are their true shares if no runtime reaches 2^44 ns, but not in general |
| RtLending | RT runtime borrowed between CPUs | the runtime of the enabled CPUs is conserved, so the `BUG_ON` is unreachable; exactly when no unthrottled queue is over its runtime |
| RtQueue | the RT priority array and its counters | after any run all counters follow from the lists; the pick is the head of the best list |
| TaskRqLock | locking a task's queue against wakeups, moves and balancing | whoever holds the lock holds the right queue, and no wakeup is lost, in every interleaving |
| TaskRqLockRuns | the same steps without interference | locking, moving, waking, balancing and sleeping each have their effect and leave all else as it was |
| DoubleLock | taking two queue locks | CPUs only wait upwards; no cyclic wait exactly if no queue is balanced with itself; someone can always go on; each operation gets exactly the locks it asked for |
| Wrr | the weighted round-robin class | a round gives each task its weight; a waiting task is served within the slices ahead of it |
| Ptree | the breadth-first process listing | level order with true depths, exactly unless the 16-bit queue index is overrun |
| Common | an optional value, lists | |

Properties that turned out not to hold of the code are kept as such, with the exact condition under which they
do hold:

- `to_ratio` is the share asked for exactly when the runtime is below 2^44 ns; from there on the shift wraps
  (`RatioIsShare`, `RatioWraps`). So two groups that each ask for the whole of a period of about five hours are both
  accepted (`Oversubscribed`); the true shares of independent groups are within the root's if their runtimes are
  below 2^44 ns (`SharesWithinRoot`).
- `__calc_delta` never gives an entity more than its share exactly for scaled queue weights up to 2^32
  (`NeverTooMuchIff`); above, it does so for every entity of scaled weight below 2^32 (`OverweightExceeds`).
- For `NICE_0_LOAD` the value returned falls short of the exact one by less than delta / 2^21 + 1 exactly when it fits
  64 bits before it is cut (`Nice0Bounds`); at scaled weight 1 and 2^57 ns it does not (`Nice0Wraps`).
- `cpu_load[]` averages are exact exactly when their weighted sum fits 64 bits (`AverageExactIff`), as for all loads below
  2^56 (`SmallLoadsExact`); a constant load of 2^61 gives 0 (`BigLoadWraps`).
- `__enable_runtime` keeps the lending balanced exactly when the queue was disabled or held its own share
  (`ResetKeepsBooks`); otherwise it creates runtime (`ReenableLeaks`).
- `distribute_cfs_runtime` gives a throttled queue what it needs exactly when it holds at most 1 ns (`GiftIsNeeded`). One
  that holds more takes the whole quota, because the amount is an unsigned difference (`FirstTakesQuota`), and a
  throttled queue that is charged once more comes to hold more (`OneTakesAll`).
- Runtime given to a throttled queue by distribution carries the pool's deadline but not its period count, so at that
  deadline it is void at once, while the comment in `expire_cfs_rq_runtime` takes a differing count to mean that the
  global deadline has advanced (`GiftsLapseEarly`).
- A queue that has run longer than it holds is throttled, or holds a whole period, at every point of a run exactly if no
  CPU going offline takes back more than the others can spare (`RunWithinIff`); otherwise a borrower is left over its
  runtime and running (`TakingBackLeavesOver`).
- At index 1 `decay_load_missed` halves the load for every missed tick exactly if fewer than 8 were missed or nothing
  would be left anyway (`HalvedIff`). From loads of 2^57 on a product can wrap and too little is left (`BigDecayWraps`).
- The comparison of virtual runtimes orders a set of values exactly when they lie within half the 64-bit circle ahead of
  one of them (`OrderIffWindow`); otherwise it can go round in a circle (`BeforeCanCycle`).
- Without `CONFIG_PREEMPT`, `double_lock_balance` of a queue with itself waits for itself; no run has a cyclic wait
  exactly if that call is never made (`NoCyclicWaitIff`).
- `do_ptree` lists the processes in level order exactly unless there are 65536 or more of them and more entries are
  asked for than the first 65536 and their children: then its `unsigned short` queue index starts again from the
  root and processes are listed twice (`Walk`, `StarOverruns`). Asking for at most 65536 entries is safe
  (`NotOverrun`). Likewise a level is the depth modulo 65536.

The comment above `__calc_delta` says that the shift stays at 22 or more for `NICE_0_LOAD` and positive for an entity no
heavier than its queue; both are so (`Nice0Shift`, `ShiftStaysPositive`). The comment in `wrr.c` says the policy is
always SCHED_WRR; the code tests for it, and so does the model.

## Model

| member | source | states |
|---|---|---|
| TaskGroups.WalkTgTreeFrom | scheduler/schedulers/core.c:699-728 | the goto loop, with only a parent pointer and a sibling cursor, ends on every tree and makes the same calls with the same data and result as recursive depth-first search that stops at the first non-zero visitor result |
| TaskGroups.DfsKeepsCalls | scheduler/schedulers/core.c:699-728 | once a visitor has returned non-zero nothing more is called or changed, and calls only add up |
| TaskGroups.DfsFollowsTour | scheduler/schedulers/core.c:699-728 | whatever the visitors, the calls made are those of the full tour of the subtree, all of them or up to the first non-zero result |
| TaskGroups.TourIsNested | scheduler/schedulers/core.c:699-728 | in the tour of a tree the calls about any group and what is below it are one stretch that begins with its Down and ends with its Up |
| TaskGroups.WalkTouchesSubtreeOnce | scheduler/schedulers/core.c:699-728 | a walk whose visitor changes one group's entry changes exactly the groups of the subtree, each exactly once, whether on the way down or up |
| TaskGroups.WalkTestsSubtree | scheduler/schedulers/core.c:699-728 | a walk whose visitor only tests returns 0 if and only if every group of the subtree passes |
| TaskGroups.SiblingSubtreesDisjoint | scheduler/schedulers/core.c:699-728 | no group is below two children of the same group |
| TaskGroups.AncestorsOnOneLine | scheduler/schedulers/core.c:699-728 | of two ancestors of one group, one is an ancestor of the other |
| TaskGroups.Tree.Create | scheduler/schedulers/core.c:6168-6184 | a new group without children comes first among its parent's children, and parent links and child lists stay consistent |
| CfsHierarchy.SettledIsDetermined | scheduler/schedulers/fair.c:4263-4366 | two settled states with the same tasks and throttled flags have the same queues, on_rq flags, h_nr_running and nr_running |
| CfsHierarchy.CountIsLocal | scheduler/schedulers/fair.c:4897-5004 | in every settled state a queue's h_nr_running is its own queued tasks plus the h_nr_running of its queued child groups |
| CfsHierarchy.QueueEmptyIffIdle | scheduler/schedulers/fair.c:4897-5004 | a queue holds an entity if and only if some task counts in it through unthrottled groups |
| CfsHierarchy.TaskCounts | scheduler/schedulers/fair.c:4897-4945 | queueing one task adds one to exactly the queues it reaches through unthrottled groups |
| CfsHierarchy.ThrottleCounts | scheduler/schedulers/fair.c:4263-4319 | throttling a queue takes its count out of exactly the queues its parent reaches |
| CfsHierarchy.GroupCounts | scheduler/schedulers/core.c:6168-6184 | a new group counts nothing and changes no count |
| CfsHierarchy.CountsStep | scheduler/schedulers/fair.c:4897-4945 | adding what is owed to one queue on the way up settles it and leaves the rest owed to its parent; a throttled queue or the root ends the debt |
| CfsHierarchy.ThrottleOwes | scheduler/schedulers/fair.c:4263-4319 | flagging a queue as throttled leaves its whole count owed, negatively, to its parent and above |
| CfsHierarchy.DetachStep | scheduler/schedulers/fair.c:4283-4297 | one level of the throttling walk settles that level, and goes on dequeueing exactly as long as the queues it leaves are empty |
| CfsHierarchy.DetachEnd | scheduler/schedulers/fair.c:4283-4300 | where the walk stops, at an entity that is not queued or past the root, everything is settled |
| CfsHierarchy.WokenStep | scheduler/schedulers/fair.c:4897-4945 | after an entity was queued in a queue, counting it there settles the queue if it is throttled and otherwise leaves its own entity to be attached |
| CfsHierarchy.DrainedStep | scheduler/schedulers/fair.c:4954-5004 | after an entity left a queue, counting it out leaves the parent to be posted or, if the queue is now empty, its own entity to be taken off |
| CfsHierarchy.ClimbStep | scheduler/schedulers/fair.c:4897-4945 | a level of the upward walk throttles at once exactly the queue that the whole wakeup was to throttle, and the walk stops there |
| CfsHierarchy.UnthrottleStart | scheduler/schedulers/fair.c:4321-4345 | unthrottling an empty queue leaves everything settled; a non-empty one owes its count to its parent |
| CfsRunqueues.Runqueues.constructor | scheduler/schedulers/core.c:6168-6184 | a lone root group with nothing queued is settled |
| CfsRunqueues.Runqueues.CreateGroup | scheduler/schedulers/core.c:6168-6184 | a new group leaves everything settled |
| CfsRunqueues.Runqueues.EnqueueEntity | scheduler/schedulers/fair.c:3680-3730 | queues the entity; a queue this wakes is throttled at once exactly when it is out of runtime (fair.c:4609-4626) |
| CfsRunqueues.Runqueues.DequeueEntity | scheduler/schedulers/fair.c:3780-3829 | takes the entity off its queue and clears its on_rq |
| CfsRunqueues.Runqueues.ThrottleLevel | scheduler/schedulers/fair.c:4283-4297 | one level of the walk: the entity is taken off unless a queue below still has others, and what is above is still owed the rest |
| CfsRunqueues.Runqueues.ThrottleCfsRq | scheduler/schedulers/fair.c:4263-4319 | sets the flag; everything above is settled again whatever was queued above, and nothing but the flag changes for a queue whose entity is not queued |
| CfsRunqueues.Runqueues.EnqueueTask | scheduler/schedulers/fair.c:4897-4945 | from a settled state, over both of its loops and with a throttle triggered on the way, the task is queued and the state settled, and exactly the predicted queue is throttled |
| CfsRunqueues.Runqueues.UnthrottleUp | scheduler/schedulers/fair.c:4346-4362 | the walk up from an unthrottled queue settles everything, also where it is stopped by a queue it wakes and throttles |
| CfsRunqueues.Runqueues.UnthrottleCfsRq | scheduler/schedulers/fair.c:4321-4366 | clears the flag and settles everything above, including queues this wakes and throttles in turn |
| CfsRunqueues.Runqueues.DequeueTask | scheduler/schedulers/fair.c:4954-5004 | the task is gone and everything is settled |
| CfsRunqueues.Runqueues.Run | scheduler/schedulers/fair.c:4263-5004 | after any sequence of creations, enqueues, dequeues, throttles and unthrottles, tasks and flags are those of the reference run and the queues, entities and counters are settled |
| ThrottleClock.ThrottleCountsBelow | scheduler/schedulers/fair.c:4249-4261 | throttling a queue adds one to the number of throttled ancestors of exactly the groups below it |
| ThrottleClock.NoJump | scheduler/schedulers/fair.c:4099-4105 | counting up or down leaves the clock reading as it was at that moment |
| ThrottleClock.ThrottleWalk | scheduler/schedulers/fair.c:4249-4275 | the walk down makes every throttle_count right for the new flag and moves no clock |
| ThrottleClock.UnthrottleWalk | scheduler/schedulers/fair.c:4235-4247 | the walk up makes every throttle_count right for the dropped flag and moves no clock |
| ThrottleClock.ThrottleClocks.constructor | scheduler/schedulers/fair.c:4628-4643 | the root's clock starts at the CPU's, with nothing throttled |
| ThrottleClock.ThrottleClocks.Advance | scheduler/schedulers/fair.c:4099-4105 | time passes for exactly the groups with nothing throttled among themselves and above |
| ThrottleClock.ThrottleClocks.ThrottleCfsRq | scheduler/schedulers/fair.c:4263-4319 | no clock moves, and only the one flag changes |
| ThrottleClock.ThrottleClocks.UnthrottleCfsRq | scheduler/schedulers/fair.c:4321-4345 | time that passed while throttled stays out of the clocks it was kept from |
| ThrottleClock.ThrottleClocks.CreateGroup | scheduler/schedulers/fair.c:4628-4643 | a group created under a throttled one starts stopped, with its parent's count, at the current time |
| ThrottleClock.ThrottleClocks.Run | scheduler/schedulers/fair.c:4099-4643 | over any run each throttle_count is the number of throttled queues on the way to the root, and each clock shows the time during which that number was zero |
| CfsBandwidth.Assigned | scheduler/schedulers/fair.c:4108-4146 | what a queue gains the pool loses, until the queue is a slice ahead or the pool is empty |
| CfsBandwidth.DistributeConserves | scheduler/schedulers/fair.c:4368-4406 | distribution neither creates nor loses runtime, and either empties the pool or unthrottles everyone |
| CfsBandwidth.GiftSuffices | scheduler/schedulers/fair.c:4383-4389 | a gift that leaves something in the pool puts the queue ahead |
| CfsBandwidth.GiftIsNeeded | scheduler/schedulers/fair.c:4383-4389 | what a throttled queue is given is what it needs to be 1 ns ahead, or all there is, if and only if it holds at most 1 ns; otherwise it is the whole pool |
| CfsBandwidth.FirstTakesQuota | scheduler/schedulers/fair.c:4414-4480 | if the first throttled queue holds more than 1 ns when the period ends it is given the whole quota, and all other queues stay as they are |
| CfsBandwidth.OneTakesAll | scheduler/schedulers/fair.c:4180-4195 | a run from a fresh group in which a throttled queue, charged while still running, is assigned runtime and then takes a whole quota while another stays throttled for want of 2 ns |
| CfsBandwidth.DistributeLists | scheduler/schedulers/fair.c:4368-4406 | who is still listed is still throttled and listed once; queues off the list are untouched |
| CfsBandwidth.NextRight | scheduler/schedulers/fair.c:4080-4602 | every operation keeps the ledger balanced and exactly the throttled queues on the list |
| CfsBandwidth.AccountedMeans | scheduler/schedulers/fair.c:4152-4195 | after a charge a stale balance is void and replaced by up to a slice of the pool; any other is kept if something is left and otherwise topped up; deadline, pool and what lapsed follow |
| CfsBandwidth.PeriodHandsOutQuota | scheduler/schedulers/fair.c:4414-4480 | after a refilling period the queues and the pool together hold one quota more than the queues held |
| CfsBandwidth.RunBehind | scheduler/schedulers/fair.c:4108-4195 | over any run no queue is ahead of the pool in counting periods, so a differing count means an earlier period |
| CfsBandwidth.GiftsLapseEarly | scheduler/schedulers/fair.c:4152-4178 | a queue unthrottled by the period timer has the pool's deadline and an old count, so all it holds at that deadline is void at the next charge, with no refill in between |
| CfsBandwidth.RunBooks | scheduler/schedulers/fair.c:4080-4602 | over any run the ledger's consumed time is the sum of the charges made and its refills are the period timers that refilled |
| CfsBandwidth.NothingFromNothing | scheduler/schedulers/fair.c:4080-4602 | over any run the charges plus what is held locally and in the pool afterwards are at most what was held before plus one quota per refill |
| CfsBandwidth.Bandwidth.constructor | scheduler/schedulers/fair.c:4080-4091 | a pool with one quota, the given number of queues holding nothing, nobody throttled |
| CfsBandwidth.Bandwidth.Refill | scheduler/schedulers/fair.c:4080-4091 | the pool is the quota again; what was left over lapses |
| CfsBandwidth.Bandwidth.AssignCfsRqRuntime | scheduler/schedulers/fair.c:4108-4146 | moves runtime from the pool to one queue, up to a slice ahead; the group counts as active if there was any; reports whether the queue is ahead |
| CfsBandwidth.Bandwidth.ExpireCfsRqRuntime | scheduler/schedulers/fair.c:4152-4178 | past its deadline, what is left of a balance lapses exactly if its period is not the pool's; otherwise only the deadline is put off |
| CfsBandwidth.Bandwidth.AccountCfsRqRuntime | scheduler/schedulers/fair.c:4180-4195 | in terms of the old queue and pool: a stale balance that is not used up ends as the lesser of a slice and the pool, and the rest lapses; with the pool's count nothing lapses and what is left stays; the ledger accounts for each |
| CfsBandwidth.Bandwidth.ReturnCfsRqRuntime | scheduler/schedulers/fair.c:4527-4549 | what an emptied queue does not need goes back to the pool if its deadline is current and lapses if not |
| CfsBandwidth.Bandwidth.ThrottleCfsRq | scheduler/schedulers/fair.c:4300-4319 | a throttled queue joins the tail of the pool's list |
| CfsBandwidth.Bandwidth.DistributeList | scheduler/schedulers/fair.c:4368-4406 | the loop over the list is the recursive distribution |
| CfsBandwidth.Bandwidth.GiveRuntime | scheduler/schedulers/fair.c:4379-4397 | one queue is given its gift and is unthrottled exactly if that puts it ahead |
| CfsBandwidth.Bandwidth.DistributeCfsRuntime | scheduler/schedulers/fair.c:4368-4406 | what is reported as used is what the recursive distribution took |
| CfsBandwidth.Bandwidth.DistributeWhileItLasts | scheduler/schedulers/fair.c:4443-4470 | the repeated distribution ends, with the pool or the list empty |
| CfsBandwidth.Bandwidth.DoSchedCfsPeriodTimer | scheduler/schedulers/fair.c:4414-4480 | one refill per period, then distribution; the timer stops exactly after a period in which nobody was throttled |
| CfsBandwidth.Bandwidth.DoSchedCfsSlackTimer | scheduler/schedulers/fair.c:4566-4602 | returned runtime beyond a slice is handed out unless a refill is near |
| CfsBandwidth.Bandwidth.Run | scheduler/schedulers/fair.c:4080-4602 | any run does what the reference does to pool, queues, list and ledger, and the charges of its operations are covered by what was held and one quota per refill |
| CalcDelta.CalcDelta | scheduler/schedulers/fair.c:232-255 | for all weights the two normalising loops and the product give delta times the normalised factor shifted down and cut to 64 bits, or nothing defined if the shift is negative; the inverse is recomputed if needed (fair.c:200-218) |
| CalcDelta.NoShift | scheduler/schedulers/fair.c:232-255 | for an entity no heavier than its queue no normalising shift happens |
| CalcDelta.SliceNeverAbove | scheduler/schedulers/fair.c:232-255 | the value returned is never above delta * f / w for f up to w and w up to 2^32, and nothing is cut off it |
| CalcDelta.OverweightExceeds | scheduler/schedulers/fair.c:200-255 | at every scaled queue weight above 2^32 every entity of scaled weight 1 up to 2^32 gets more than its share of every multiple of 2^32 |
| CalcDelta.NeverTooMuchIff | scheduler/schedulers/fair.c:200-255 | no entity ever gets more than its share if and only if the scaled queue weight is at most 2^32 |
| CalcDelta.ShiftStaysPositive | scheduler/schedulers/fair.c:228-255 | for an entity no heavier than its queue the shift stays at 10 or more, for every 64-bit weight |
| CalcDelta.SliceNotFarBelow | scheduler/schedulers/fair.c:232-255 | without a shift the result falls short of delta * f / w by less than delta * f / 2^32 + 1 |
| CalcDelta.Nice0Shift | scheduler/schedulers/fair.c:221-255 | with NICE_0_LOAD at most 10 bits are shifted out, for every 32-bit inverse |
| CalcDelta.Nice0Bounds | scheduler/schedulers/fair.c:232-255 | with NICE_0_LOAD the value returned is never above the exact one, and short of it by less than delta / 2^21 + 1 if and only if the value fits 64 bits before the cut, as it does whenever delta * 1024 / w fits |
| CalcDelta.Nice0Wraps | scheduler/schedulers/fair.c:232-255 | at scaled weight 1 and 2^57 ns what is returned is too little |
| CalcDelta.CalcDeltaFair | scheduler/schedulers/fair.c:645-651 | an entity of weight NICE_0_LOAD advances by delta, any other by the scaled value, which is always defined |
| CalcDelta.SchedSlice | scheduler/schedulers/fair.c:675-695 | the loop over the levels gives each level its share of what the one below left, within both error bounds, never more than the period; an entity not yet queued counts as if it were |
| CalcDelta.SlicesWithin | scheduler/schedulers/fair.c:661-695 | the slices of the first k entities are within their part of the period, despite truncated weights and the rounded inverse |
| CalcDelta.SlicesFitPeriod | scheduler/schedulers/fair.c:661-695 | on a flat queue whose load is the sum of its entities' weights all slices together fit the period |
| CpuLoad.DecayLoadMissed | scheduler/schedulers/fair.c:5055-5077 | for every load and number n of missed ticks the table-driven loop gives no more than load * (1 - 1/2^i)^n, and for loads below 2^57 falls short of it by at most (load + 127) / 128 per factor used |
| CpuLoad.FactorsAreFloors | scheduler/schedulers/fair.c:5041-5048 | every factor of the table is 128 * (1 - 1/2^i)^(2^j) rounded down |
| CpuLoad.DecayAccurate | scheduler/schedulers/fair.c:5013-5077 | decay is never above load * (1 - 1/2^i)^n and short of it by at most (load + 127) / 128 for each factor, or once if it is taken to leave nothing |
| CpuLoad.FewRoundings | scheduler/schedulers/fair.c:5055-5077 | at most seven factors are used |
| CpuLoad.HalvedIff | scheduler/schedulers/fair.c:5055-5077 | at index 1 the result is load / 2^n if and only if n is below 8 or load is below 2^n |
| CpuLoad.NeverAbove64 | scheduler/schedulers/fair.c:5055-5077 | the bound from above holds for all loads, also where a product wraps |
| CpuLoad.BigDecayWraps | scheduler/schedulers/fair.c:5055-5077 | at load 2^58 one missed tick at index 4 leaves less than half instead of fifteen sixteenths |
| CpuLoad.DecayCloser | scheduler/schedulers/fair.c:5055-5077 | decay keeps the order of two loads and does not move them apart |
| CpuLoad.CpuLoadUpdate | scheduler/schedulers/fair.c:5115-5156 | for all loads, all five averages, updated in place, are what 64-bit arithmetic makes of the old array |
| CpuLoad.AveragedIs | scheduler/schedulers/fair.c:5081-5156 | an average is (1 - 1/2^i) of the old and 1/2^i of the new load, rounded towards the new |
| CpuLoad.CaughtUpAccurate | scheduler/schedulers/fair.c:5081-5140 | after n missed ticks under load t an average is caught up to (1 - 1/2^i)^n * (old - t) + t, within the roundings of two decays |
| CpuLoad.AverageExactIff | scheduler/schedulers/fair.c:5115-5156 | a 64-bit average is the exact one if and only if its weighted sum fits 64 bits |
| CpuLoad.SmallLoadsExact | scheduler/schedulers/fair.c:5115-5156 | for loads below 2^56 the code computes the exact averages, for any number of missed ticks |
| CpuLoad.BigLoadWraps | scheduler/schedulers/fair.c:5115-5156 | a constant load of 2^61 makes the slowest average 0 |
| CpuLoad.UpdateBetween | scheduler/schedulers/fair.c:5115-5156 | each average stays between the least and the greatest of its old value, the old cpu_load[0] and the new load, for any number of missed ticks |
| CpuLoad.TickMovesCloser | scheduler/schedulers/fair.c:5115-5156 | a tick brings each average strictly nearer to the load from its own side, and one that is there stays |
| CpuLoad.Converges | scheduler/schedulers/fair.c:5115-5156 | under constant load an average is there after at most as many ticks as it was away |
| Timeline.WindowOrder | scheduler/schedulers/fair.c:489-511 | within half a circle of a base the signed 64-bit difference is the difference of the distances from the base, so the comparison is total there |
| Timeline.OrderIffWindow | scheduler/schedulers/fair.c:507-511 | on every finite non-empty set of values the comparison is asymmetric, total and transitive if and only if all of them lie within half a circle ahead of one of them |
| Timeline.BeforeCanCycle | scheduler/schedulers/fair.c:507-511 | three values can each be before the next |
| Timeline.Link | scheduler/schedulers/fair.c:548-572 | the descent puts the entity where a scan from the left would, behind everything it is not before, and the leftmost flag is set if and only if it is before everything |
| Timeline.InsertKeepsOrder | scheduler/schedulers/fair.c:548-576 | inserting the latest arrival keeps the traversal sorted by virtual runtime and, among equals, by arrival |
| Timeline.EraseList | scheduler/schedulers/fair.c:578-581 | removal takes exactly the one entity out of the traversal |
| Timeline.WithoutKeepsOrder | scheduler/schedulers/fair.c:578-581 | removal keeps the order of the others |
| Timeline.LeftIsFirst | scheduler/schedulers/fair.c:3914-3927 | the cached leftmost or the running entity, whichever is chosen as left, is behind no queued entity |
| Timeline.SecondIsNext | scheduler/schedulers/fair.c:3929-3945 | what replaces a skipped entity is another one, and nothing but the skipped one is before it |
| Timeline.SecondDecides | scheduler/schedulers/fair.c:3929-3945 | if the replacement is too far behind, so is every other queued entity |
| Timeline.NearIff | scheduler/schedulers/fair.c:6140-6153 | within a window an entity is near enough if and only if it is at most the granularity behind |
| Timeline.OnlyItsOwn | scheduler/schedulers/fair.c:3948-3962 | the picked entity stops being a buddy and all other buddies stay |
| Timeline.PickedWithinGranularity | scheduler/schedulers/fair.c:3914-3962 | whatever the buddies, the picked entity is at most the leftmost's wakeup granularity behind every queued one (fair.c:6105-6153) |
| Timeline.CfsTimeline.constructor | scheduler/schedulers/fair.c:578-591 | an empty timeline is in order |
| Timeline.CfsTimeline.LinkEntity | scheduler/schedulers/fair.c:548-576 | the entity is inserted in its place and the cached leftmost is the first of the traversal |
| Timeline.CfsTimeline.EraseEntity | scheduler/schedulers/fair.c:578-581 | the entity is removed and the cached leftmost moves to its successor if it was first |
| Timeline.CfsTimeline.EnqueueEntity | scheduler/schedulers/fair.c:3680-3730 | an entity that was normalised is put at its distance from min_vruntime, a waking one no further back than a threshold, and it joins in its place with nobody else moved |
| Timeline.MoveKeepsDistance | scheduler/schedulers/fair.c:3649-3720 | an entity that leaves one queue awake and joins another is as far ahead of or behind its min_vruntime as before; put back where that has not moved, it is where it was |
| Timeline.SleepersGainLittle | scheduler/schedulers/fair.c:3594-3720 | a sleeper joins at the later of where it slept and the threshold behind min_vruntime, also if it was moved meanwhile and kept only its distance |
| Timeline.CfsTimeline.PutPrevEntity | scheduler/schedulers/fair.c:3966-3988 | the running entity goes back to its place, behind its equals |
| Timeline.CfsTimeline.SetNextEntity | scheduler/schedulers/fair.c:3872-3886 | the entity leaves the tree to run |
| Timeline.CfsTimeline.DequeueEntity | scheduler/schedulers/fair.c:3780-3829 | exactly that entity leaves, only its own buddy roles end, it keeps only its distance from min_vruntime unless it sleeps, and min_vruntime then moves on without it unless it is to be put back |
| Timeline.CfsTimeline.UpdateCurr | scheduler/schedulers/fair.c:828-850 | the running entity, which is outside the tree, advances by the fair share of the time it ran, no order is disturbed, and min_vruntime follows |
| Timeline.CfsTimeline.UpdateMinVruntime | scheduler/schedulers/fair.c:513-543 | min_vruntime becomes the later of itself and the least virtual runtime queued, so it never goes back |
| Timeline.CfsTimeline.LeftUnlessSkipped | scheduler/schedulers/fair.c:3914-3945 | the leftmost, unless it is to be skipped and another is near enough; it is kept only if no other is |
| Timeline.CfsTimeline.PickNextEntity | scheduler/schedulers/fair.c:3914-3962 | a queued entity is picked, near enough to the leftmost; a near next buddy wins over a near last one, that over the skip rule; a skipped one runs only as such a buddy or when nothing else is near |
| LoadBalance.LoopKeeps | scheduler/schedulers/fair.c:6840-6921 | the detach loop loses and duplicates no task, moves only eligible ones, books exactly the load it takes, takes at most twice the imbalance plus one, and asks for a break only after using up loop budget |
| LoadBalance.LoopInOrder | scheduler/schedulers/fair.c:6840-6921 | the detached list is the detached tasks in reverse |
| LoadBalance.LoopLooks | scheduler/schedulers/fair.c:6840-6921 | the tasks are looked at in list order, again only after all; a task is taken if and only if it is eligible, not too small and at most half too heavy for what is left; the loop ends only when a take makes up the imbalance or is enough, nothing is left, or a budget is used up |
| LoadBalance.LoopFlags | scheduler/schedulers/fair.c:6726-6760 | after any looks: all pinned if and only if every task was barred, some pinned if and only if one was by affinity, and another destination is set if and only if one of them could go to another CPU of the group, to which it then may |
| LoadBalance.DetachedDone | scheduler/schedulers/fair.c:6840-6921 | a round moves only tasks it found at the source, to the destination, each allowed there; an all-pinned round moved none; an idle balancer leaves the source something |
| LoadBalance.DetachedExplained | scheduler/schedulers/fair.c:6840-6921 | both hold of a whole round, with its early exit |
| LoadBalance.FirstWorthIsTaken | scheduler/schedulers/fair.c:6840-6921 | with imbalance, budget and more than one task left, a round takes the first listed task if it is worth taking |
| LoadBalance.NothingTakenNothingWorth | scheduler/schedulers/fair.c:6840-6921 | a round that takes nothing although it could look at all tasks found none worth taking |
| LoadBalance.LooksWithin | scheduler/schedulers/fair.c:8140-8141 | no round looks at more tasks than the limit or than the source had |
| LoadBalance.AnotherRound | scheduler/schedulers/fair.c:8143-8173 | the bound of twice the imbalance plus one holds over all rounds together, not only for each |
| LoadBalance.PinnedIffBarred | scheduler/schedulers/fair.c:8140-8239 | over all rounds against one source the flag is set at the end if and only if no task looked at could have gone to the destination of its round |
| LoadBalance.FirstSourceGives | scheduler/schedulers/fair.c:8080-8240 | if the first source named has an imbalance and its first task is worth taking, the pass ends with that source and has moved that task |
| LoadBalance.Balancer.CanMigrateTask | scheduler/schedulers/fair.c:6713-6788 | true exactly for a task that is not throttled, allowed, not running and cold or forced; remembers pinned tasks and, once, another CPU of the group still under consideration |
| LoadBalance.Balancer.DetachTasks | scheduler/schedulers/fair.c:6840-6921 | the loop in place is the recursive one, with its rotation, its two budgets and its three ways to stop |
| LoadBalance.Balancer.TakeOrRotate | scheduler/schedulers/fair.c:6872-6911 | the first task is detached and booked, or moved to the tail |
| LoadBalance.Balancer.AttachTasks | scheduler/schedulers/fair.c:6954-6971 | all detached tasks end up at the head of the destination's list, in reverse of the detached list |
| LoadBalance.Balancer.Round | scheduler/schedulers/fair.c:8143-8168 | after a round every task found at source or destination is at one of them, once; the moved ones arrive in the order they were taken; what was looked at and taken, and why it ended, is as in LoopLooks |
| LoadBalance.Balancer.MoreBalance | scheduler/schedulers/fair.c:8143-8210 | the more_balance jumps end; all rounds together take at most twice the imbalance plus one; only CPUs of the local group are given up |
| LoadBalance.Balancer.FromSource | scheduler/schedulers/fair.c:8127-8210 | against one source outside the local group, which stays in the mask, all moves are right and within the bound |
| LoadBalance.Balancer.TurnToBalance | scheduler/schedulers/fair.c:8038-8074 | true if and only if the CPU is under consideration and newly idle, or the first idle one of the mask, or designated and none is idle |
| LoadBalance.Balancer.LoadBalance | scheduler/schedulers/fair.c:8080-8240 | the redo jumps end; every source was named when it was this CPU's turn, lies outside its group and is tried once, and only the last loses tasks; balanced is reported exactly if the last look found it not to be its turn or no source, all pinned exactly if no task of the last source could move and no other CPU is left, otherwise how many tasks were moved |
| RtAdmission.RatioIsShare | scheduler/schedulers/core.c:2430-2444 | to_ratio is the share of the period asked for if and only if the runtime is below 2^44 ns or unlimited |
| RtAdmission.RatioWraps | scheduler/schedulers/core.c:2430-2444 | a whole period of 2^44 ns has ratio 0 |
| RtAdmission.GlobalAtMostOne | scheduler/schedulers/sched.h:1285-1296 | the global limits that are accepted (rt.c:2614-2624) never ask for more than the whole |
| RtAdmission.ChildrenSum | scheduler/schedulers/rt.c:2451-2464 | the loop sums the children's ratios modulo 2^64, with the group being changed counted at its new value |
| RtAdmission.TgRtSchedulable | scheduler/schedulers/rt.c:2415-2469 | the error code is that of the first failing test of the group: busy exactly if RT tasks would be left without runtime and the runtime is not above the period, 0 exactly if all four tests pass |
| RtAdmission.PassingMeansAdmitted | scheduler/schedulers/rt.c:2415-2469 | if all groups pass then every sum of children is within its parent, no sum having wrapped |
| RtAdmission.PassIffSound | scheduler/schedulers/rt.c:2415-2469 | all groups pass if and only if the tree is admitted, no runtime exceeds its period, and while runtimes are limited no group with RT tasks is left without |
| RtAdmission.CreateAdmitted | scheduler/schedulers/rt.c:184-222 | a new group has no runtime, so an admitted tree stays admitted |
| RtAdmission.AntichainWithin | scheduler/schedulers/rt.c:2451-2464 | groups below g, none above another, together ask at most what g asks |
| RtAdmission.AntichainWithinRoot | scheduler/schedulers/rt.c:2415-2527 | the ratios of any such set are within the root's, which is within the global one, which is at most one |
| RtAdmission.SharesWithinRoot | scheduler/schedulers/rt.c:2415-2527 | the true shares of any such set are within the root's ratio if none of their runtimes reaches 2^44 ns |
| RtAdmission.RunAdmitted | scheduler/schedulers/rt.c:2415-2670 | after any run of creations, changes of groups and changes of the global limits, the ratios of any set of independent groups are within the root's, and that within the global one |
| RtAdmission.Oversubscribed | scheduler/schedulers/rt.c:2415-2527 | a run from the initial state in which two sibling groups are each given the whole of a period and both changes are accepted |
| RtAdmission.RtBandwidth.constructor | scheduler/schedulers/rt.c:184-222 | the root group starts with the global limits, admitted |
| RtAdmission.RtBandwidth.CreateGroup | scheduler/schedulers/rt.c:184-222 | admitted before, admitted after; fails for lack of memory only |
| RtAdmission.RtBandwidth.RtSchedulable | scheduler/schedulers/rt.c:2471-2486 | the walk returns 0 if and only if every group passes with the change |
| RtAdmission.RtBandwidth.TgSetRtBandwidth | scheduler/schedulers/rt.c:2488-2527 | the change is taken if and only if it is not a forbidden one and leaves the tree admitted, no runtime above its period and no RT tasks without runtime |
| RtAdmission.RtBandwidth.SchedRtHandler | scheduler/schedulers/rt.c:2632-2670 | new global limits are taken, if and only if they are valid and the tree is sound under them, or fully undone, and the tree stays admitted under whichever is in force |
| RtAdmission.RtBandwidth.Run | scheduler/schedulers/rt.c:2415-2670 | any run does what the reference does and leaves the ratios of every set of independent groups within the root's |
| RtLending.BorrowConserves | scheduler/schedulers/rt.c:637-684 | borrowing from any number of CPUs keeps the sum, never takes a lender below what it has used, and never lifts the borrower above the period |
| RtLending.BorrowTakesParts | scheduler/schedulers/rt.c:637-684 | each neighbour lends 1/n of its spare time before the next is asked, the last one only what is missing to a period; unless the borrower then holds a period, all have lent |
| RtLending.ReclaimSucceeds | scheduler/schedulers/rt.c:689-769 | the greedy reclaim ends with nothing wanting whenever the others hold enough, or one is there to take a surplus |
| RtLending.ReclaimAmounts | scheduler/schedulers/rt.c:712-745 | what is taken back from a queue is what those before it could not give, as far as it has it |
| RtLending.SurplusToFirst | scheduler/schedulers/rt.c:712-745 | a surplus goes to the first queue that can take it |
| RtLending.NothingLeaks | scheduler/schedulers/rt.c:689-769 | with the books balanced a CPU going offline always gets back what it lent and returns what it borrowed: BUG_ON(want) is unreachable |
| RtLending.ResetKeepsBooks | scheduler/schedulers/rt.c:771-793 | resetting a queue to its share keeps the books balanced if and only if it was disabled or held its share |
| RtLending.ReenableLeaks | scheduler/schedulers/rt.c:771-793 | after one CPU has borrowed from another, enabling the enabled lender leaves more runtime than there should be |
| RtLending.DisableKeepsBooks | scheduler/schedulers/rt.c:689-769 | taking a CPU offline keeps the books balanced |
| RtLending.NextKeepsBooks | scheduler/schedulers/rt.c:637-994 | every operation keeps the books balanced |
| RtLending.RunConserves | scheduler/schedulers/rt.c:637-994 | in every run the enabled queues together hold exactly their number times the configured runtime |
| RtLending.ExceededMeans | scheduler/schedulers/rt.c:906-947 | a limited queue that was not throttled is throttled if and only if it has run longer than it holds after borrowing; without configured runtime its time is reset instead; nobody else's time or flag changes |
| RtLending.RefreshedMeans | scheduler/schedulers/rt.c:850-871 | a turn takes the lesser of the time and overrun * runtime off a queue's time and unthrottles it exactly if it is then below its runtime |
| RtLending.RefreshedFromMeans | scheduler/schedulers/rt.c:810-892 | over all CPUs every online queue has had such a turn, and offline ones keep time and flag |
| RtLending.NextWithin | scheduler/schedulers/rt.c:637-994 | an operation leaves every queue that is over its runtime throttled or with a whole period, if and only if it is not a CPU going offline that takes back more than the others can spare |
| RtLending.TakingBackWithinIff | scheduler/schedulers/rt.c:689-769 | what the others can spare when a CPU takes back what it lent |
| RtLending.RunWithinIff | scheduler/schedulers/rt.c:637-994 | at every point of a run every such queue is throttled or has a whole period, if and only if no CPU going offline takes back too much |
| RtLending.TakingBackLeavesOver | scheduler/schedulers/rt.c:689-769 | one that does leaves a borrower over its runtime and not throttled |
| RtLending.RootDomain.constructor | scheduler/schedulers/rt.c:77-104 | all CPUs start with their own share |
| RtLending.RootDomain.DoBalanceRuntime | scheduler/schedulers/rt.c:637-684 | the loop over the CPUs is the recursive borrowing, each lending its part in turn |
| RtLending.RootDomain.BalanceRuntime | scheduler/schedulers/rt.c:795-805 | a queue borrows only when it has run longer than it holds |
| RtLending.RootDomain.ReclaimAll | scheduler/schedulers/rt.c:712-745 | the greedy loop is the recursive reclaim |
| RtLending.RootDomain.DisableRuntime | scheduler/schedulers/rt.c:689-769 | the claim that nothing is left wanting is proved where the source crashes; the queue is then unlimited |
| RtLending.RootDomain.EnableRuntime | scheduler/schedulers/rt.c:771-793 | the queue has its share and no debt; the books stay balanced if and only if it was disabled or held its share |
| RtLending.RootDomain.SchedRtRuntimeExceeded | scheduler/schedulers/rt.c:906-947 | borrows first; then a limited queue that was not throttled is throttled if and only if runtime is configured and it is still over, which is what is reported; without configured runtime its time is reset; nobody else's time or flag changes |
| RtLending.RootDomain.UpdateCurrRt | scheduler/schedulers/rt.c:953-994 | a limited queue is charged and is throttled if and only if it is then over what it holds after borrowing; a disabled one is not charged; nobody else's time or flag changes |
| RtLending.RootDomain.RefreshOne | scheduler/schedulers/rt.c:850-871 | one CPU's turn: what it has earned is taken off its time, and it is unthrottled exactly if it is then below its runtime |
| RtLending.RootDomain.DoSchedRtPeriodTimer | scheduler/schedulers/rt.c:810-892 | every online CPU has had its turn, offline ones keep time and flag; the timer may stop if and only if none of them has time or tasks left, or the limit is off and none that has is throttled |
| RtLending.RootDomain.Run | scheduler/schedulers/rt.c:637-994 | any run does what the reference does, with the books balanced throughout |
| RtQueue.SettledIsDetermined | scheduler/schedulers/rt.c:997-1317 | bitmap, priorities, counters and the share of nr_running follow from the lists and the throttled flag alone |
| RtQueue.AddedRight | scheduler/schedulers/rt.c:1225-1257 | adding a task keeps bitmap and lists together and lowers the best priority exactly if it is better |
| RtQueue.DelistedRight | scheduler/schedulers/rt.c:1215-1223 | removing a task keeps them together, and changes the best priority only if the task had it |
| RtQueue.DelistedOvercounted | scheduler/schedulers/rt.c:1190-1275 | a task that is off its list, or keeps its place for later, is exactly what the counters still count too much |
| RtQueue.AddedUncounted | scheduler/schedulers/rt.c:1176-1257 | a task just put on its list is exactly what the counters do not count yet |
| RtQueue.HoleUncounted | scheduler/schedulers/rt.c:1225-1257 | so is one that kept its place |
| RtQueue.RequeueRight | scheduler/schedulers/rt.c:1351-1362 | moving a task within its list keeps everything right |
| RtQueue.RtRunqueue.constructor | scheduler/schedulers/rt.c:77-104 | an empty array is settled |
| RtQueue.RtRunqueue.DequeueTop | scheduler/schedulers/rt.c:996-1010 | the queue's tasks leave nr_running |
| RtQueue.RtRunqueue.EnqueueTop | scheduler/schedulers/rt.c:1012-1026 | unless it was counted, the queue is afterwards counted in nr_running, with all its tasks, if and only if it has some and is not throttled |
| RtQueue.RtRunqueue.IncRtTasks | scheduler/schedulers/rt.c:1072-1081 | once the one listed but uncounted task is counted, number and best priority are right for the lists |
| RtQueue.RtRunqueue.DecRtTasks | scheduler/schedulers/rt.c:1083-1107 | once the one task counted too much is counted out, they are right again, although the best priority is looked up only if the task had it |
| RtQueue.RtRunqueue.DequeueEntity | scheduler/schedulers/rt.c:1259-1275 | without move the task keeps its place on the list but is not counted |
| RtQueue.RtRunqueue.EnqueueEntity | scheduler/schedulers/rt.c:1225-1257 | without move it takes the place it kept |
| RtQueue.RtRunqueue.EnqueueTask | scheduler/schedulers/rt.c:1294-1302 | the task is at the head or tail of its priority's list, once, and everything is settled |
| RtQueue.RtRunqueue.DequeueTask | scheduler/schedulers/rt.c:1304-1317 | the task is gone from its list and everything is settled |
| RtQueue.RtRunqueue.SaveRestore | scheduler/schedulers/rt.c:1207-1317 | dequeue with save and enqueue with restore keep every list as it was |
| RtQueue.RtRunqueue.Requeue | scheduler/schedulers/rt.c:1350-1362 | a queued task moves to the head or tail of its list; any other call changes nothing |
| RtQueue.RtRunqueue.Throttle | scheduler/schedulers/rt.c:906-947 | a throttled queue is off nr_running and otherwise untouched |
| RtQueue.RtRunqueue.Unthrottle | scheduler/schedulers/rt.c:855-880 | it is counted again exactly if it has tasks |
| RtQueue.RtRunqueue.PickNextTask | scheduler/schedulers/rt.c:1496-1569 | nothing is picked if and only if the queue is throttled or empty; otherwise the head of the best list, and no queued task has a better priority |
| RtQueue.RtRunqueue.Run | scheduler/schedulers/rt.c:810-1362 | any run does to the lists what the reference does, with every counter right throughout |
| TaskRqLock.AcquireStepKeeps | scheduler/schedulers/core.c:92-152 | the retry loops of both lock functions keep the invariant |
| TaskRqLock.MoveStepKeeps | scheduler/schedulers/core.c:943-962 | move_queued_task, which drops one lock before taking the other, keeps it |
| TaskRqLock.PullStepKeeps | scheduler/schedulers/fair.c:6793-6800 | detaching under the source queue's lock alone keeps it |
| TaskRqLock.PushStepKeeps | scheduler/schedulers/fair.c:6926-6971 | attaching under the destination queue's lock alone keeps it |
| TaskRqLock.WakeStepKeeps | scheduler/schedulers/core.c:1984-2093 | a wakeup under the task's own lock alone keeps it |
| TaskRqLock.PlaceStepKeeps | scheduler/schedulers/core.c:1858-1875 | changing the CPU of a waking task and queueing it there, or leaving it to that CPU, keeps it |
| TaskRqLock.PendStepKeeps | scheduler/schedulers/core.c:1738-1774 | taking tasks off the wake list keeps it |
| TaskRqLock.SchedStepKeeps | scheduler/schedulers/core.c:3328-3333 | schedule dequeueing or keeping its own task keeps it |
| TaskRqLock.NextKeeps | scheduler/schedulers/core.c:92-152 | every step of every actor keeps it |
| TaskRqLock.HeldMeansTaskIsHere | scheduler/schedulers/core.c:92-152 | after any run, whoever has been handed a queue for a task holds that queue's lock and the task's, the queue is the task's and the task is not migrating |
| TaskRqLock.OthersCannotEndHolding | scheduler/schedulers/core.c:92-152 | no other actor can end that; the holder ends it only by releasing the queue or starting to move the task |
| TaskRqLock.ArrivesWhereSent | scheduler/schedulers/core.c:943-962 | a moved or detached task is on the queue it was sent to when it is attached, so the BUG_ONs there are unreachable |
| TaskRqLock.MigratingHasMover | scheduler/schedulers/core.c:116-152 | whoever spins on a migrating task waits for an actor that has the task in hand |
| TaskRqLock.WakingEndsQueued | scheduler/schedulers/core.c:1667-1731 | a waking task stops waking only by being queued on its CPU and running |
| TaskRqLock.WakerEnds | scheduler/schedulers/core.c:1738-2093 | a waker is done with a task only when it is queued and running, or on its CPU's wake list, or was not asleep when looked at |
| TaskRqLock.WakeupsFinish | scheduler/schedulers/core.c:1738-2093 | both hold of every step of every run, and no other actor can end a wakeup |
| TaskRqLock.NoWakeupLost | scheduler/schedulers/core.c:1758-1875 | after any run a waking task is in the hands of the holder of its lock, on its CPU's wake list, or taken off it to be queued there |
| TaskRqLockRuns.LockRun | scheduler/schedulers/core.c:116-152 | undisturbed, task_rq_lock ends with both locks and changes nothing else |
| TaskRqLockRuns.RetryRun | scheduler/schedulers/core.c:116-152 | after locking a queue that is no longer the task's, both locks are dropped and the second try gets the right one |
| TaskRqLockRuns.MoveRun | scheduler/schedulers/core.c:943-962 | a queued task is moved to the other CPU and all else is as before |
| TaskRqLockRuns.WakeRun | scheduler/schedulers/core.c:1984-2093 | a sleeping task ends queued and running on the CPU chosen, and all else is as before |
| TaskRqLockRuns.RemoteWakeRun | scheduler/schedulers/core.c:1738-1754 | a task still queued when woken runs where it is |
| TaskRqLockRuns.ListedWakeRun | scheduler/schedulers/core.c:1758-1774 | a task left on a wake list runs once its CPU has gone through the list |
| TaskRqLockRuns.BalanceRun | scheduler/schedulers/fair.c:6793-6971 | a pulled task is queued at its new CPU with one queue locked at a time |
| TaskRqLockRuns.SleepRun | scheduler/schedulers/core.c:3328-3333 | a task that has set its state is taken off its queue by schedule |
| TaskRqLockRuns.SetAndReset | scheduler/schedulers/core.c:3328-3333 | a task that sets its state back in time has not slept |
| TaskRqLockRuns.SleepAndWake | scheduler/schedulers/core.c:1984-2093 | sleeping and being woken on the same CPU leaves everything as it was |
| DoubleLock.TakeKeeps | scheduler/schedulers/sched.h:1907-1924 | taking the next lock keeps every CPU's locks ascending |
| DoubleLock.BalanceKeeps | scheduler/schedulers/sched.h:1811-1849 | both variants of double_lock_balance, with their trylock and back-off, keep them if and only if the unfair one is not called with the queue already held |
| DoubleLock.ReleaseKeeps | scheduler/schedulers/sched.h:1867-1941 | releasing keeps them |
| DoubleLock.RunKeeps | scheduler/schedulers/sched.h:1811-1941 | every run keeps the locks and what the CPUs think they hold together |
| DoubleLock.BlocksUpwardsOnly | scheduler/schedulers/sched.h:1811-1941 | in every state reachable without such a call a CPU waits only for a lock above every one it holds |
| DoubleLock.ChainClimbs | scheduler/schedulers/sched.h:1811-1941 | along a chain of waiting CPUs the locks waited for go up |
| DoubleLock.NoCyclicWait | scheduler/schedulers/sched.h:1811-1941 | no such state has a ring of CPUs waiting for each other |
| DoubleLock.NoCyclicWaitIff | scheduler/schedulers/sched.h:1811-1941 | a run has no cyclic wait at any point if and only if it never balances a queue with itself |
| DoubleLock.NeverStuck | scheduler/schedulers/sched.h:1811-1941 | in every such state some CPU waits for nobody |
| DoubleLock.StepsMean | scheduler/schedulers/sched.h:1811-1941 | each operation asks for exactly the queues it is called with, takes a free lock it waits for, and releases what it is told to; the unfair variant keeps what it holds unless the order forbids it |
| DoubleLock.OthersUntouched | scheduler/schedulers/sched.h:1811-1941 | no other CPU changes what one holds or waits for |
| DoubleLock.LockAndUnlock | scheduler/schedulers/sched.h:1907-1941 | with both queues free, double_rq_lock holds both and double_rq_unlock leads back |
| Wrr.NextValid | scheduler/schedulers/wrr.c:71-240 | every operation keeps tasks listed once and weights and slices at least 1 |
| Wrr.WrrRq.constructor | scheduler/schedulers/wrr.c:71-96 | an empty queue has matching counters |
| Wrr.WrrRq.EnqueueTask | scheduler/schedulers/wrr.c:71-96 | the task is at the head or tail, and nrRunning and totalWeight match the list |
| Wrr.WrrRq.DequeueTask | scheduler/schedulers/wrr.c:98-114 | the task is gone and the counters match; nothing happens on an empty queue |
| Wrr.WrrRq.PickNextTask | scheduler/schedulers/wrr.c:137-161 | the head of the list, or nothing if it is empty, decided by the counter |
| Wrr.WrrRq.RequeueTask | scheduler/schedulers/wrr.c:189-201 | the task is at the head or the tail and the counters match |
| Wrr.WrrRq.TaskTick | scheduler/schedulers/wrr.c:207-240 | for whichever task runs: one tick off the slice; at zero a new slice of weight * WRR_TIMESLICE and, if not alone, to the tail; another policy is left alone; the counters match |
| Wrr.WrrRq.SetWrrWeight | scheduler/schedulers/wrr.c:412-429 | the error codes, and otherwise the caller's new weight with totalWeight following it, wherever the caller is on the list |
| Wrr.WrrRq.Run | scheduler/schedulers/wrr.c:71-429 | through any run nrRunning and totalWeight match the list, which is what the operations say |
| Wrr.StepGetsCloser | scheduler/schedulers/wrr.c:71-240 | while a task waits, a tick of the head takes one from the slices ahead of it, and no yield of another, tail enqueue, other dequeue or weight change adds to them |
| Wrr.NoStarvation | scheduler/schedulers/wrr.c:71-429 | a waiting task reaches the head within as many ticks as the tasks ahead have slices left, in every run whose ticks go to the head and that puts nobody there |
| Wrr.SliceRotates | scheduler/schedulers/wrr.c:207-240 | a whole fresh slice goes to the head, which then is at the tail with a fresh slice again |
| Wrr.RoundIsFair | scheduler/schedulers/wrr.c:207-240 | from fresh slices, the sum of the weights times WRR_TIMESLICE ticks give every task exactly its weight times WRR_TIMESLICE and restore the queue |
| Ptree.GetLevel | ptree/ptree.c:35-47 | walking up ends, and counts the depth of the children below the root modulo 65536 |
| Ptree.GetRoot | ptree/ptree.c:8-13 | process 0, or the process of that number if there is one |
| Ptree.PsCopy | ptree/ptree.c:22-33 | the entry written describes the task, its parent and its level |
| Ptree.CopyChildren | ptree/ptree.c:107-129 | the group leaders among the children are appended in order, as many as there is room for |
| Ptree.Expand | ptree/ptree.c:100-131 | one turn of the outer loop appends the children of the next entry, each with its depth |
| Ptree.NextFilled | ptree/ptree.c:99-131 | an array filled from its own first entries stays in level order |
| Ptree.UsedUpIsOrder | ptree/ptree.c:99-131 | an array whose every entry has been expanded holds all levels |
| Ptree.LevelsOnce | ptree/ptree.c:99-131 | no process is in level order twice |
| Ptree.AllIsClosed | ptree/ptree.c:99-131 | if fewer than asked for are listed, the root is among them and so is every leading child of one that is |
| Ptree.OrderIsFull | ptree/ptree.c:99-131 | the first knr in level order are distinct, and if fewer than knr they are closed under leading children and hold the root |
| Ptree.IndexWraps | ptree/ptree.c:56-131 | when as many entries have been expanded as the queue index has values and there is room left, the walk starts again from the root |
| Ptree.NotOverrun | ptree/ptree.c:56-131 | asking for no more entries than the queue index has values never overruns it, whatever the tree |
| Ptree.FillTree | ptree/ptree.c:99-131 | the loop ends; every entry is right; the pids are the first knr in level order if and only if the queue index was not overrun |
| Ptree.Walk | ptree/ptree.c:83-134 | every entry is a process below the root with its parent and depth; the pids are the first knr in level order, none twice and nothing reachable missing if they are fewer, exactly unless the queue index was overrun, so for every knr up to its width; a thread as root gives nothing |
| Ptree.StarOverruns | ptree/ptree.c:56-131 | a root with one child per value of the index overruns it |
| Ptree.DoPtree | ptree/ptree.c:49-147 | which error comes first, and what is written to the caller in each case: the count only if it differs, before the buffer; copying nothing cannot fail |

## Left out

- CfsRunqueues.Runqueues.EnqueueEntity: load.weight is tested only for zero in the walks, so queues hold sets of entities and not weights; PELT averages and their tables are not modelled.
- CfsRunqueues.Runqueues.Run: which queues are out of runtime is an arbitrary set per operation; CfsBandwidth models the runtime itself.
- ThrottleClock.ThrottleClocks.Run: clocks are unbounded integers, without 64-bit wrap-around.
- CfsBandwidth.Bandwidth.Run: the quota is fixed and finite; reconfiguration, CPU hotplug and the lock dropped inside the distribution loop are left out, and a charge that would not fit 64 bits is not performed.
- RtAdmission.RtBandwidth.CreateGroup: creation is taken to fail at 2^44 groups, far beyond memory.
- RtLending.RootDomain.Run: rt_time stays below 2^63, the limits are not reconfigured, sharing is not switched off, and enabling an enabled queue that has lent or borrowed is not performed, because it breaks the books (ResetKeepsBooks, ReenableLeaks).
- RtQueue.RtRunqueue.Run: pushable tasks, the round-robin slice and its counters, and balancing between CPUs are left out.
- TaskRqLock.HeldMeansTaskIsHere: migrate_swap, fork, the wait for on_cpu and memory barriers are left out; so is try_to_wake_up_local, which does not check the task's queue again after taking the lock back and relies on rules of the worker pools.
- TaskRqLock.WakerEnds: which queued task is running is not modelled, so a task may set its own state as soon as it is queued; the waker's release then sets it to running once more.
- DoubleLock.RunKeeps: nested locks of other kinds and lockdep classes are left out.
- CalcDelta.CalcDelta: what a shift by a negative amount does is undefined and stays so; the precomputed inverses of the priority table are not modelled.
- CalcDelta.SlicesFitPeriod: the period is arbitrary, so how __sched_period chooses it does not matter.
- Timeline.Link: recolouring after insertion and removal is any function that keeps the traversal; the red-black library is not part of this repository.
- Timeline.CfsTimeline.EnqueueEntity: re-queueing the entity that is still running, and the placement of a new task by its slice, are left out; update_curr before it is a step of its own.
- Timeline.CfsTimeline.DequeueEntity: update_curr before it is a step of its own.
- Timeline.CfsTimeline.UpdateCurr: group accounting and statistics are left out.
- LoadBalance.Balancer.LoadBalance: how the busiest group and queue and the idle CPUs are found, cache hotness, NUMA and active balancing are left out: their results are arbitrary, and the busiest queue is only required to lie in another group and in the mask.
- Ptree.Walk: pid namespaces and a root that exits before the lock is taken are left out; the width of the queue index is a parameter, 65536 in the source.
- pullTaskWrr in wrr.c is not modelled: the queue it pulls to is never assigned.
- The orientation daemon, the rotation system calls, the shell and the web server are not modelled: I/O and plumbing.
- Idle-CPU selection, NUMA placement, statistics, tracing, deadline scheduling, cpufreq, timers and RCU are not modelled.

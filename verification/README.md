# go-sim: a verified model

go-sim simulates networked services one millisecond at a time. Nodes keep two
priority queues of timed work, load balancers forward calls and route replies
back, senders queue and retry calls that are not accepted, a resource machine
kills and revives nodes, and a barrier decides when simulated time may move.
This project models those parts in Dafny and proves what they keep.

| module | file | what it covers |
|---|---|---|
| `Types`, `Lists` | Types.dfy, Lists.dfy | calls, replies, Go's truncation of floats; sequences without repetition |
| `PQueues` | PQueue.dfy | the indexed binary heap and the `container/heap` algorithms it relies on |
| `TaskQueues`, `CallQueues` | TaskQueue.dfy, CallQueue.dfy | the two heaps of a node, each behind its lock |
| `Resources` | Resources.dfy | levels, memory kill, outage, recovery and histories |
| `Retry`, `Outbound` | Retry.dfy, Outbound.dfy | backoff arithmetic; the sender's queue, its drain and how long a call stays in it |
| `NodeTasks`, `NodeCalls`, `NodeRuns` | NodeTasks.dfy, NodeCalls.dfy, NodeRun.dfy | the two halves of a node's tick, and whole runs of its runner |
| `BatchSplits` | BatchSplit.dfy | what becomes of a batch of calls, by its memory costs and by where the refresh falls |
| `Sources` | Source.dfy | a continuous arrival process batched into ticks |
| `LoadBalancing` | LoadBalancer.dfy | round-robin choice |
| `Barrier` | Barrier.dfy | the main loop, the broadcaster and the runners as a transition system |
| `Protocol` | Protocol.dfy | calls and replies between any number of nodes, as a transition system at lock and channel granularity |

## How to read it

Objects that the program updates in place are classes, and each method's
`ensures` ties the new state to a function or predicate over plain values
(`Charge`, `Refresh`, `Step`, `Select`, `Snapshot`); lemmas then prove what the
program promises about those. Goroutines that meet at locks and channels are
transition systems whose invariants are proved step by step and then for every
run. Inside one node, `NodeTasks.Node.Interfere` stands for whatever the other
goroutines do between two locked sections of the runner: the tick's one refresh
(and, after a recovery, the wiping of tasks and then of calls) at any moment,
and any number of network charges for calls accepted from other nodes. Random
draws are parameters: the costs of each look at a task (`NodeTasks.Costs`), those
of each call and its stages (`NodeCalls.CallCosts`), gaps and jitter. So each
operation states exactly what it charges: `NodeTasks.Charged` says that a node's
levels are those of a bill of charges, with the tick's refresh somewhere among
them if it came, up to the network, which other nodes charge at any time.

Assumptions:

- `float64` and `Milliseconds` are reals; ids and counters are unbounded.
- Every random cost is an arbitrary real `>= 0` (distributions.go:13-15);
  limits and decay rates are `>= 0`; a jitter draw is any real in [0, 1).
- Simulated time starts at 1000 and moves by 1, so it is integral and positive.
  One tick has one time value: that is `Barrier.EveryTickOnce`.
- Load balancers and sources have no resource record; app nodes always do.
- A call has a caller, and a source's callback returns a new call each time. So
  the calls that reach a node have ids of their own and arrive once each, which
  is what `Protocol` proves and `NodeRuns.RunNode` builds on.
- A retry record belongs to one send (node.go:283 makes one per send).

Some things the proofs turned up:

- A call that a load balancer forwards and the app refuses is offered at most
  once more from the balancer's queue, although the default policy allows four
  offers. It times out after 90 ms, the first backoff is at least 160 ms, and
  the backoff test comes first, so the next look at the call finds it timed out
  (`Outbound.ForwardedCallsOfferedOnce`).
- Jitter is applied after the cap. No draw lifts the delay over `MaxDelay`
  exactly when there is no jitter or both ends of its band are within the
  maximum (`Retry.NeverOverMax`), and none makes it negative exactly when the
  base delay is zero, or positive with `Jitter <= 1` (`Retry.NeverInThePast`).
- Given a non-negative initial delay and factor, the backoff never shrinks
  exactly when the factor is at least 1, or the initial delay is zero, or the
  maximum is not positive (`Retry.BackoffGrowsExactly`).
- The history shows an outage only if a refresh falls inside it: over-limit
  entries number ceil(R), or ceil(R) - 1 for a kill after the tick's refresh,
  and none for R <= 0 (`Resources.OutageReadBack`).
- The truncated tests of `handleCalls` and `handleTasks` equal the real ones
  exactly at positive and at non-negative times (`CallQueues.ReadyTest`,
  `NodeTasks.DueTest`); simulated time starts at 1000.
- With a recovery time of zero or less a node may die, refuse calls and be
  revived within one batch. The batch of an up node always splits cleanly
  exactly when the tick's refresh is over, or the recovery time is positive, or
  the memory limit is at least 1 (`BatchSplits.SplitExactly`), and there
  `NodeCalls.HandleBatch` claims it. From a down node it is always a
  refused prefix and then a clean split (`BatchSplits.DownThenSplits`).

Where comments and code disagree, the model follows the code: the cleanup does
not drain `callCh` or `replyCh` (resources.go:234-236 against 248-251); a task
met while the node is down is appended to `pendingWork` "for later", but nothing
reads that list (task.go:75-83); `Less` orders the lowest priority first
(pqueue.go:33-35); the cpu cost is charged once per look at a task, not per
millisecond of work (resources.go:59, task.go:126).

## Model

| member | source | states |
|---|---|---|
| `PQueues.RootIsMin` | pqueue.go:38-49 | in a heap-ordered array the root is no larger than any entry |
| `PQueues.RiseStep` | pqueue.go:51-59 | one swap of a rising item with its parent leaves at most the next place up out of order |
| `PQueues.SinkStep` | pqueue.go:51-59 | one swap of a sinking item with its lesser child leaves at most the next place down out of order |
| `PQueues.SinkDone` | pqueue.go:92-97 | sinking that moved restores order; sinking that did not leaves only the place above in doubt |
| `PQueues.ReplacedCanSink` | pqueue.go:92-97 | changing one priority disturbs order only around that place and changes the multiset by that one entry |
| `PQueues.PQueue.Peak` | pqueue.go:38-49 | nil exactly when empty; otherwise an entry of least priority |
| `PQueues.PQueue.Swap` | pqueue.go:51-59 | exchanges two items, and both still know their positions |
| `PQueues.PQueue.Append` | pqueue.go:63-77 | appends the item, with its position as index |
| `PQueues.PQueue.DropLast` | pqueue.go:81-90 | detaches the last item, whose index becomes -1; the rest stay as they are |
| `PQueues.PQueue.Init` | node.go:441-442 | from any arrangement reaches heap order, permuting the items and changing no entry |
| `PQueues.PQueue.HeapPush` | node.go:103-117 | order and indices kept; the contents grow by exactly the one entry |
| `PQueues.PQueue.HeapPop` | node.go:363 | returns a least entry with index -1; the contents shrink by exactly it |
| `PQueues.PQueue.Fix` | pqueue.go:92-97 | restores order after the priority at one position changed, with the same entries |
| `PQueues.PQueue.Update` | pqueue.go:92-97 | replaces one item's value and priority through its stored index; nothing else changes |
| `TaskQueues.TaskQueue.Add` | node.go:106-118 | the queue gains the task, filed under its truncated wakeup |
| `TaskQueues.TaskQueue.PopDue` | task.go:33-49 | pops a task with floor(wakeup) <= now if there is any; answers nil only when none is due |
| `TaskQueues.TaskQueue.Wipe` | resources.go:253-257 | the cleanup leaves an empty, valid heap |
| `CallQueues.CallQueue.AddCall` | node.go:92-104 | the queue gains the call, filed under its truncated wakeup |
| `CallQueues.ReadyTest` | node.go:362 | the truncated test equals the real one for every wakeup iff the integral time is positive |
| `CallQueues.CallQueue.PopReady` | node.go:351-373 | pops a call of least truncated wakeup if that is before now; otherwise none is ready |
| `CallQueues.CallQueue.ExtractReady` | node.go:348-381 | extracts exactly the calls with wakeup < now, in non-decreasing truncated priority, and leaves exactly the others |
| `CallQueues.ExtractDone` | node.go:348-381 | popping in order until none is ready is filter-and-sort on the multiset |
| `Resources.StepsSound` | resources.go:126-216 | every charge and refresh keeps: down iff memory over its limit, levels in [0,1], network within its limit |
| `Resources.OnlyMemoryKills` | resources.go:136-165 | an up node goes down by a step iff it is a memory charge that crosses the limit |
| `Resources.OwnLevelOnly` | resources.go:136-150 | a cpu or network charge touches only its own level |
| `Resources.NetworkRefused` | resources.go:141-147 | a network charge fails iff the node is down or the charge crosses the limit, and then changes nothing |
| `Resources.ChargesAddUp` | resources.go:136-150 | a node that stays up has used exactly the capped sums of its cpu and memory charges, and of the network what was met in turn |
| `Resources.DiesExactly` | resources.go:152-166 | an up node dies of a run of charges iff their memory passes the limit |
| `Resources.SaturationLinear` | resources.go:223-228 | beyond the limit equal steps of the level add equal delays, at the rate of the factor |
| `Resources.PaidConcat` | resources.go:126-209 | bills of charges compose, with at most one refresh among them and network charges by others in between |
| `Resources.DelayGrows` | resources.go:136-150 | between refreshes the cpu level and the saturation delay never shrink |
| `Resources.RunSound` | resources.go:126-216 | every record of every run is sound, before and after every refresh |
| `Resources.HistoryShowsOutages` | resources.go:205-207 | a memory entry exceeds the limit iff the node was down when it was recorded |
| `Resources.IdleLevels` | resources.go:197-202 | after n ticks without charges each level of an up node has lost n times its own rate, down to zero |
| `Resources.IdleDecays` | resources.go:197-207 | and the three histories show it |
| `Resources.IdleForgets` | resources.go:197-202 | an idle up node's memory reads 0 after ceil(level / rate) ticks |
| `Resources.Frozen` | resources.go:129-134 | while the node is down, every refresh meets the record the kill left |
| `Resources.OutageReadBack` | resources.go:152-207 | over-limit frozen entries from the kill to the revival, which records zeros; ceil(R) or ceil(R)-1 of them by which side of the refresh the kill fell on; none for R <= 0 |
| `Resources.NodeResources.constructor` | resources.go:110-123 | a fresh record, up, at zero, with the configured limits and empty histories |
| `Resources.NodeResources.ConsumeResources` | resources.go:126-174 | the locked section does `Charge`, with its error; the histories stay; a kill clears pendingWork |
| `Resources.NodeResources.UpdateResources` | resources.go:179-209 | the locked section revives, decays as `IdleDecays` states over runs, appends one entry to each history, and asks for the cleanup iff it revived the node |
| `Resources.NodeResources.CalculateCPUDelay` | resources.go:219-232 | positive iff the level is over the limit and the factor is positive; for a factor >= 0 never negative and never more than at a full level |
| `Resources.RunNode` | loop.go:54-81 | over a run the object follows `AtTick` and each of its three histories is that of its level, one entry per tick |
| `Retry.BackoffGrowsToCap` | retry.go:41-46 | with factor >= 1 the pre-jitter delay never shrinks and stays at the cap once there |
| `Retry.BackoffGrowsExactly` | retry.go:41-46 | for a non-negative initial delay and factor it never shrinks iff the factor is >= 1, the initial delay zero or the maximum not positive |
| `Retry.PowShrinks` | retry.go:42 | powers of a factor of at most 1 shrink at least harmonically |
| `Retry.PowAdds` | retry.go:42 | the backoff is exponential: powers multiply as attempts add |
| `Retry.JitterLinear` | retry.go:49-52 | jitter is linear in the draw, over the width of its band |
| `Retry.JitterBand` | retry.go:48-54 | the delay lies within the factors 1-jitter and 1+jitter of min(initial * factor^attempt, max) |
| `Retry.NeverInThePast` | retry.go:41-55 | no draw gives a negative delay iff the base is not negative and is zero or jitter <= 1 |
| `Retry.NeverOverMax` | retry.go:44-54 | no draw gives a delay over the maximum iff there is no jitter or both ends of its band are within the maximum |
| `Outbound.WaitsClosedForm` | node.go:230-241 | the waits still ahead add up to one per retry left plus the backoffs |
| `Outbound.KeptDelay` | node.go:199-246 | each retained round keeps the latest tick at which the call can still be looked at |
| `Outbound.ResidenceBound` | node.go:167-246 | a call still queued after a drain has been there for less than 1 + MaxRetries + sum of min(initial * factor^k, max) * (1 + jitter) |
| `Outbound.DefaultResidence` | retry.go:29-37 | that is less than 1684 ms under the default policy |
| `Outbound.OffersBound` | node.go:215-238 | at most MaxRetries + 1 offers from the queue |
| `Outbound.OffersExactly` | node.go:214-245 | a call that is never accepted uses one attempt per offer, and without a timeout is given up at the offer after the last attempt, not before |
| `Outbound.GivenUpExactly` | node.go:214-245 | so it is offered exactly MaxRetries + 1 times and is gone after its residence |
| `Outbound.StepExactly` | node.go:199-246 | in the call's own times, attempts and the answer: delivered, failed and kept each iff stated |
| `Outbound.KeptExactly` | node.go:222-245 | a refused call that is kept has one attempt more and waits at least the least and at most the most backoff of that attempt |
| `Outbound.FirstBackoffOutlastsTimeout` | node.go:201-212 | if the shortest first backoff exceeds the timeout there is at most one offer |
| `Outbound.ForwardedCallsOfferedOnce` | lb.go:86 | so calls forwarded by a balancer are offered at most once from its queue |
| `Outbound.SelectPartitions` | node.go:184-188 | sorting a queue into retained, accepted and failed loses and duplicates nothing |
| `Outbound.CallCounter.IncrCallNumber` | call.go:38-45 | each id is one more than the last |
| `Outbound.Sender.SendCall` | call.go:49-85 | a new id, not in the map, is registered; the call enters the queue unattempted iff refused |
| `Outbound.Sender.QueueOutbound` | node.go:150-164 | the call is appended and memory charged; it stays queued even if that kills the sender |
| `Outbound.Inbox.TryAcceptCall` | node.go:123-146 | accepted iff the callee is up at both tests, its network has room for the cost after what others charged meanwhile, and the channel has room; the call is then in the channel and the network charged |
| `Outbound.Sender.ProcessOutboundCall` | node.go:199-246 | backoff, timeout, offer, retry and exhaustion in that order, with one error reply exactly on giving up |
| `Outbound.Sender.ProcessAll` | node.go:181-188 | the loop over the private copy: retained, delivered and failed calls each in queue order |
| `Outbound.Sender.DrainOutbound` | node.go:167-195 | with calls arriving meanwhile, the new queue is the arrivals followed by the retained calls in their old order; each call is delivered, failed or kept exactly as its times, attempts and answer say |
| `Outbound.Sender.DrainTick` | node.go:167-195 | one drain per tick: every retained call is within its residence bound and stays punctual for the next tick |
| `Outbound.SenderTick` | node.go:447-452 | a tick with calls refused during and after its drain leaves every queued call in time |
| `Outbound.RunSender` | loop.go:54-81 | so over a whole run without a cleanup no queued call outstays its bound |
| `NodeTasks.WorkShrinks` | task.go:32-67 | removing a due task, or delaying it by at least the least known delay, lowers the remaining work |
| `NodeTasks.RoundCloser` | task.go:32-67 | each round lowers the measure: nextMillisecond moved on, or a first delay appeared, or less work remains |
| `NodeTasks.DelayMonotone` | resources.go:219-232 | a positive delay does not shrink as the cpu level rises, whatever the sign of the factor |
| `NodeTasks.DueTest` | task.go:47 | the truncated due test equals wakeup < now + 1 for every wakeup iff the time is not negative |
| `NodeTasks.SettleRound` | task.go:47-61 | a round keeps the account: every due task is queued or closed once, nothing else is touched |
| `NodeTasks.FateByCpu` | task.go:125-155 | in the levels' own terms: rejected iff the cpu level has reached a positive reject limit, put back iff not and a positive factor punishes an overage, by overage times factor |
| `NodeTasks.AheadNext` | task.go:47-49 | tasks are looked at in non-decreasing truncated wakeup, even those put back |
| `NodeTasks.BillTotals` | task.go:125-155 | the looks' bill adds up to one cpu cost per look at an up node, and to the memory of tasks put back and of queued remote calls |
| `NodeTasks.ImposedHandled` | task.go:143-148 | a round moves a queued wakeup by nothing or by the delay of one more saturated level |
| `NodeTasks.ProgressHandled` | task.go:47-61 | a round keeps the account with the cause of every closing and every postponement |
| `NodeTasks.Node.NextMillisecondStep` | node.go:456-457 | each step exactly: the refresh, then after a recovery the tasks wiped, then the calls; it never raises cpu and never takes the node down |
| `NodeTasks.Node.Interfere` | resources.go:126-264 | what other goroutines can do between two locked sections of the runner: network charges and the refresh, no kill, no new task, calls and pendingWork kept or wiped |
| `NodeTasks.Node.Requeue` | task.go:144-148 | the wakeup grows by the delay and the task is back in the heap it was popped from |
| `NodeTasks.Node.RunClosure` | node.go:148-160 | the closure runs, and each remote call it has to queue is charged to memory |
| `NodeTasks.Node.SendReply` | task.go:102-119 | only the last stage replies, from an up node whose network took the reply's cost; else the reply is dropped because the node is down or the cost crosses the limit |
| `NodeTasks.Node.HandleTaskCPU` | task.go:125-159 | the look's cpu cost is charged; by the level that leaves: rejected with a 503 iff it is at the reject limit, else postponed by exactly the delay, for one more memory cost, iff one applies, else passed on |
| `NodeTasks.Node.Finish` | task.go:92-120 | closure, then reply or drop, with exactly their charges |
| `NodeTasks.Node.HandleTask` | task.go:71-121 | exactly one fate, explained by the levels seen wherever the refresh falls: parked if the node is down, else by the cpu tests and the network charge, with the replies, closures and charges that fate implies |
| `NodeTasks.Node.TakeDue` | task.go:33-49 | pops a due task of least truncated wakeup, or shows that every queued wakeup is now + 1 or later |
| `NodeTasks.Node.TaskRound` | task.go:32-67 | one round keeps the account and lowers the measure |
| `NodeTasks.Node.HandleTasks` | task.go:27-68 | terminates; afterwards no queued task is due; each task due at entry closed once, was postponed past the tick or was wiped; others keep their wakeup; looks come in order of truncated wakeup; every fate is the one called for by levels the node had during the loop, and every wakeup moved by exactly the delays that such levels imposed, one per look that put the task back; replies and closures are those of the closings, in order; the node was charged exactly the looks' bill, so if it stays up and unrefreshed its cpu and memory are the capped sums |
| `NodeCalls.BuildTasks` | node.go:313-333 | one distinct task per stage in order, each due at now plus its stage's local work, only the last without a next task |
| `NodeCalls.AddTasks` | node.go:335-338 | exactly those tasks join the queue unless a cleanup wipes it |
| `NodeCalls.HandleCall` | node.go:293-339 | refused with one error reply only by a node that is down, and always by one that stays down; without a refresh in between, dropped iff an up node's memory with the call's cost passes the limit; else one task per stage and memory at that sum |
| `NodeCalls.BatchNext` | node.go:383-393 | the account of a batch extends over one more call |
| `NodeCalls.FatedNext` | node.go:383-393 | the results and levels so far are those of the memory costs so far, wherever the refresh fell, and one more call keeps that |
| `NodeCalls.FatedShape` | node.go:293-311 | so a batch has the split, the refusals or both that `BatchSplits` proves |
| `NodeCalls.HandleBatch` | node.go:383-393 | the results are exactly those of the calls' memory costs, with the refresh somewhere in the batch if it came: a node that starts up takes calls up to a split, drops the crossing call and refuses every later one, unless a refresh still to come can revive it; one that starts down refuses them all, or a prefix and then splits; replies are always exactly the refusals, tasks due by their local work |
| `NodeCalls.HandleCalls` | node.go:341-394 | exactly the ready calls, in priority order, each with the result of its cost; the others stay unless a cleanup wiped them |
| `BatchSplits.UpSplits` | node.go:293-311 | the batch of an up node splits if the refresh is past, R > 0 or the memory limit is >= 1 |
| `BatchSplits.SplitBySum` | node.go:304-311 | without a refresh, call j of an up node's batch is admitted iff memory with the costs up to its own is within the limit, and lost iff its own is the first to cross it |
| `BatchSplits.RevivedMidBatch` | resources.go:186-195 | with R <= 0 and a limit below 1, a batch that is dropped, refused and then taken |
| `BatchSplits.SplitExactly` | resources.go:152-195 | from an up node every batch splits, whatever its costs and wherever the refresh falls, iff the refresh is over, R > 0 or the limit is >= 1 |
| `BatchSplits.DownThenSplits` | node.go:296-311 | from a down node every batch is a refused prefix and then a clean split, whatever the recovery time |
| `BatchSplits.RefusedExactly` | node.go:296-302 | from a down node every batch is refused throughout iff the refresh is over or the outage lasts past the tick |
| `NodeRuns.TakeArrivals` | node.go:405-407 | every call received joins the heap, unless a cleanup comes between |
| `NodeRuns.ReplyBudget` | task.go:92-120 | replies sent plus live tasks of a call never exceed its stages; at most one reply has status 0 and only the last stage sends it |
| `NodeRuns.RunCalls` | node.go:405-413 | the calls half of a tick keeps the node's books and leaves no ready call; what it processed and what still waits are the calls that waited and came, unless a cleanup wiped some |
| `NodeRuns.RunTasks` | node.go:414 | the tasks half of a tick keeps them and leaves no due task, the calls as they are unless a cleanup wipes them, and the tick's refresh and cleanup over |
| `NodeRuns.FinishMillisecond` | node.go:448-457 | what is left of nextMillisecond runs to its end; a revived node then has no queued task or call left from before |
| `NodeRuns.RunNode` | node.go:396-427 | after any run no ready call and no due task waits; tasks made are distinct, closed once, one per stage for each call taken, and replies are those of the closings and refusals; each call that came is processed or waits at most once, and exactly once if no cleanup ran; and if the calls that came have ids of their own, each processed call is answered within its budget |
| `NodeRuns.ConservedTick` | node.go:405-414 | a tick conserves the calls: none processed twice, none lost without a cleanup |
| `NodeRuns.RunRepliesPerCall` | node.go:293-339 | if the calls that came have ids of their own, then of the replies sent with a processed call's id: with its live tasks at most one per stage and at most one success if it was turned into tasks; exactly one, an error, if it was refused; none if dropped |
| `Sources.ArrivalsOrdered` | source.go:86-104 | arrivals never precede the first tick or one another |
| `Sources.GapsPass` | source.go:95-104 | gaps bounded below by a positive value pass every instant |
| `Sources.Source.NextMillisecond` | source.go:81-107 | after the tick at T exactly the arrivals before T have been generated, once each and in order, each at most 1 ms late, one gap apart from the start on, and nextEvent is the next arrival |
| `Sources.RunSource` | loop.go:59-67 | the same over a run from a source never ticked |
| `LoadBalancing.LB.HandleCall` | lb.go:46-92 | the next instance in turn; a new call from the balancer under the drawn id, due in 5 ms, with a 90 ms timeout |
| `LoadBalancing.Balance` | lb.go:49-61 | any m consecutive forwards pick each of n instances floor(m/n) or ceil(m/n) times |
| `LoadBalancing.WindowBalanced` | lb.go:49-61 | the same for every window of the calls a balancer has handled |
| `Barrier.ChannelEmpty` | broadcaster.go:42-53 | when a token is offered the channel is empty and the runner idle, so the dropping branch is not reached |
| `Barrier.NextInv` | loop.go:54-81 | every step keeps: counted work is the current tick's, the counter counts it, each job is given out once |
| `Barrier.RunInv` | loop.go:41-81 | hence in every reachable state of every run |
| `Barrier.TimeMovesOnlyWhenDone` | loop.go:79-81 | time moves, by one, only when nothing of the tick runs, waits or is being handled, and every source, node and runner job of it has finished once |
| `Barrier.EveryTickOnce` | loop.go:54-81 | every job of every completed tick ran exactly once and saw that tick's time; no token was dropped |
| `Barrier.InProgressNow` | loop.go:54-81 | in every reachable state all counted work, waiting tokens included, belongs to the tick of the present time |
| `Barrier.OneTimePerUnit` | loop.go:36 | so a unit of work sees one time from beginning to end |
| `Barrier.NoDeadlock` | loop.go:79-80 | in every reachable state before the loop is over some step can be taken; while it waits, some counted work can end |
| `Barrier.RunLength` | loop.go:54 | a run of the given length makes ceil(length) ticks, none if it is not positive |
| `Barrier.Broadcaster.Subscribe` | broadcaster.go:26-34 | a new empty channel joins the subscribers |
| `Barrier.Broadcaster.Broadcast` | broadcaster.go:37-54 | every channel with room gets the token and the WaitGroup counts exactly those |
| `Protocol.RegisterInv` | call.go:50-54 | registering a call under its id keeps the protocol invariant |
| `Protocol.AcceptInv` | node.go:138-145 | so does acceptance into the callee's channel |
| `Protocol.ShiftInv` | node.go:166-195 | so does every move between lists, loss to a cleanup included |
| `Protocol.SenderFailsInv` | node.go:205-238 | so does giving up with an error reply to the sender itself |
| `Protocol.RefuseInv` | node.go:296-302 | so does the refusal of a call by a node that is down |
| `Protocol.AnswerInv` | task.go:113-119 | so does an answer of a task, with success or with an error |
| `Protocol.ForwardInv` | lb.go:46-61 | so does a balancer's new call for the one it took |
| `Protocol.LookupInv` | node.go:67-76 | so does the lookup: a match is the one call with that id |
| `Protocol.DeleteInv` | node.go:79-81 | so does the delete, even if the map was replaced since the lookup |
| `Protocol.ForwardedReplyGenuine` | lb.go:62-71 | the rewritten reply carries the id of the call its receiver sent |
| `Protocol.CallBackInv` | node.go:82-83 | so does the callback, with a balancer's id rewrite |
| `Protocol.ForgetInv` | resources.go:243-246 | so does the replacement of the pending map |
| `Protocol.NextInv` | node.go:60-89 | every step of every goroutine keeps the invariant |
| `Protocol.RunInv` | node.go:60-89 | hence it holds in every reachable state of every interleaving |
| `Protocol.RepliesAreOwn` | node.go:65-69 | every waiting reply carries the id of a call this node sent, about it or about its one forward |
| `Protocol.CallBackCorrelated` | node.go:67-83 | when a callback fires, the entry is the call sent under that id, the reply is about it or its one forward, and this id never fired before |
| `Protocol.CallbacksFireOnce` | node.go:79-83 | each id's callback fires at most once per node, whatever the cleanups do |
| `Protocol.UnknownMeansAnswered` | node.go:71-76 | a lookup drops its reply only if the callback already fired or the map was replaced |
| `Protocol.LedgerNext` | node.go:60-89 | every step keeps the ledger: each reply made is in one place, and calls have the answers their places call for |
| `Protocol.RepliesConserved` | node.go:65-83 | in every reachable state each reply ever made, with its status, is exactly once in a channel, in a hand, delivered to a source's or app's callback, or dropped as unknown |
| `Protocol.StatusKept` | lb.go:62-71 | a reply in a channel or a hand has a status that its call was answered with |
| `Protocol.AnsweredByPlace` | node.go:205-238 | a call refused or given up by its sender has been answered exactly once, with an error; one not turned into tasks otherwise not at all |
| `Protocol.CallBackPassesOn` | lb.go:62-71 | the callback of a forward puts exactly one more reply in the channel of the first call's sender, under its id, about the same call, with the same status |
| `Protocol.OnePlace` | call.go:49-65 | in every reachable state each call is on exactly one list, once |
| `Protocol.AcceptedAtMostOnce` | node.go:123-146 | a call is accepted at most once, fails at its sender at most once, and never both |
| `Protocol.CallBackEnabled` | lb.go:62-71 | the callback step is never stuck for want of a call or a channel |

## Left out

- Logging, counters, printing, profiling, `goid.go`, the sample program: no state that the properties depend on.
- `distributions.go`: every cost is an arbitrary non-negative parameter; network charges by calls from other nodes are not accounted for one by one, so a node's network level is bounded but not computed.
- One-minute idle timeouts, shutdown through `done`, and a second `Run` on one loop.
- Random number quality, floating-point rounding, and integer overflow of `lastSent` and `callNumber`.
- Per-call cost fields, which nothing reads; endpoint names, parameters, reply lengths and call filters.
- Blocking on a full `callCh` or `replyCh` of a million entries; the refusal of a call by a full `callCh` is one of the ways a callee may answer no.
- Task closures are known by their call and stage; what they send appears as memory charges here and as `Start` steps in `Protocol`. `nextTask` is known only as nil or not, which is all the program asks of it.
- `Protocol` and `Barrier` are transition systems on values, since their subject is interleaving; a bulk move of a list is a move per call, and whether a callee accepts is left open. A task's `Answer` step may repeat there; the bound on replies per call is proved in `NodeRuns`.
- Liveness: that a call is eventually answered. Memory failure drops calls and network failure drops replies without an answer.
- NodeTasks.Node.HandleTasks: does not account for `pendingWork` over the whole loop, because a kill clears it; HandleTask states the append for each parked task.
- NodeRuns.RunNode: follows an app node; a balancer's turn is `LoadBalancing` and the `Forward` step of `Protocol`.
- Outbound.ResidenceBound: assumes a drain every tick and a policy with no negative delay or factor, because the bound is about time in the queue, not about a wipe.
- Sources.Source.NextMillisecond: assumes that some arrival is at or after the tick, because otherwise the program's loop does not end; GapsPass gives a condition for it.
- LoadBalancing.LB.HandleCall: needs a pool of at least one instance, because Go panics on the division otherwise.

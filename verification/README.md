# Job scheduler: a verified model of the job lifecycle

A job scheduler takes requests over HTTP, stores each job and puts it in a queue; worker
slots take jobs, run a handler, and then complete the job, schedule a retry with backoff,
or send it to the dead letters; a ticker promotes delayed jobs whose time has come. The
project models that life of a job and proves what holds in every run of the service, however
requests, promotion passes and workers interleave.

## How the model is built

- `Domain`: priorities, statuses, retry policies, jobs and history records as values, with the
  64-bit backoff arithmetic written out. `JobEntity.Job` is the job as an object whose methods
  update it in place.
- `MemoryQueueSpec`, `RedisSpec`: the operations of the two queues as functions on values.
  `MemoryQueue.Queue`, `MemoryStorage.Storage`, `RedisQueue.Queue`, `Services.Processor` and
  `Services.Scheduler` are the adapters and services as classes, each method proved against
  those functions.
- `System`: the whole service over the memory adapters as a transition system. Each call on a
  queue, a storage or the metrics, and each update of a job, is one action; a worker slot is a
  program counter with fifteen points; a run is any interleaving of any number of requests,
  promotion passes and slots of any number of runners. Handlers may return anything. The clock
  never goes back and is read where the code reads it. `Services.CallAlone` and
  `Services.RequestAlone` connect the transition system with the methods of the classes: a call
  that nothing interrupts does what the method promises.
- `Invariant`: the inductive invariant. `Safety`, `Lifecycle`, `ScheduledStart`, `Fifo`,
  `Conservation`, `Drain` and `HistoryLedger` derive the results about runs from it.
- `QueueRefinement` and `ServiceRefinement`: one abstract queue of ids, refined by the memory
  queue, by the Redis queue and by every run of the service.
- `RedisPromotion`: ProcessDelayedJobs over Redis command by command, with any number of
  callers, failing commands and crashes.
- `ByValue`: the services over adapters that copy jobs, with the push of a delayed entry and its
  removal as separate commands. `ByValueInvariant` and `ByValueTheorems` hold its invariant and
  the results about its runs; `ByValueRequests` follows requests for a later time and ties its steps
  to the Redis reply and to ProcessJob.
- `BackoffTheorems`: where the backoff is exact. `MapSum`: sums over finite maps.

A cell of the transition system carries three fields that no guard reads and no other field
depends on: the policy a job was submitted with, where it is, and one ledger entry per handler
attempt. The results about runs are stated over the queue's collections, the job records, the
slots and the saved history, and use the ledger only as the count of attempts begun. Only
`Lifecycle.RunCell`, from which `Lifecycle.FinalStays` and `Lifecycle.UnnamedPriorityParks` follow,
speaks of where a job is.

## What holds, and what does not

- Priorities outside 1..4 pass the scheduler unchecked. In memory such a job is parked for good
  (`Lifecycle.UnnamedPriorityParks`); with Redis it joins the medium list
  (`QueueRefinement.UnnamedPrioritiesDiffer`). Draining completes or buries exactly the jobs
  that are not parked (`Drain.DrainTerminates`).
- The exponential backoff is exact exactly while 2^n * BaseDelay < 2^63
  (`BackoffTheorems.ExponentialExactIff`). With the default base of 30 s that ends after 28
  attempts, and the 29th retry would lie in the past (`BackoffTheorems.DefaultBoundary`).
- With adapters that copy jobs, the UpdateJob that trails the re-enqueueing of a failed job can
  overwrite the record of the next attempt, whether that one is retried or buried
  (`ByValueTheorems.UpdateLost`). Handing out a job can lead to this exactly when a ProcessJob
  call for it is still in progress (`ByValueTheorems.OverlapExact`), and so can promoting it
  (`ByValueTheorems.PromotionExact`); from an empty start with two workers it does happen
  (`ByValueTheorems.OverlapHappens`).
- Otherwise, with one promotion pass at a time whose removals succeed, a copy in a queue agrees
  with the stored record whenever no call for its job is in progress, with one exact exception: a
  delayed entry that has been pushed and taken and is still to be removed
  (`ByValueTheorems.CopiesAgree`, `ByValueTheorems.WindowDisagrees`). Both conditions on the
  passes are needed (`ByValueTheorems.TwoPassesDisagree`, `ByValueTheorems.UnremovedDisagrees`).
- Over Redis nothing is ever lost (`RedisPromotion.NothingLost`), and one pass at a time that
  removes what it pushed pushes an entry once for each time it was delayed
  (`RedisPromotion.PushedOnce`). Without any one of these conditions it can be pushed again: two
  callers with the same entry to push (`RedisPromotion.TwoCallersPushTwice`), a removal that fails
  or a pass cut off before it (`RedisPromotion.NotRemovedPushedAgain`).
- If a job is unknown to the storage, ProcessJob gives up after taking it from the queue and the
  job is in no collection any more. The invariant shows that this never happens to a scheduled
  job, because it is saved before it is enqueued.

## Model

| member | source | states |
|---|---|---|
| Invariant.StepKeeps | internal/core/services/processor.go:48-193 | every action of the service keeps the invariant: one place per job, status by place and program point, attempts within the budget, times no earlier than the backoff allows |
| Invariant.Always | internal/core/services/processor.go:48-193 | the invariant holds in every state of every run |
| Invariant.PromoteAllEffect | internal/adapters/secondary/queue/memory.go:119-132 | a promotion pass sets exactly the promoted jobs to pending and changes nothing but them and the queue |
| Invariant.DecisionOk | internal/core/services/processor.go:145-168 | after a failure either the retry is set no earlier than all delays so far together, or the budget is used up and the job is dead |
| Safety.ExactlyOnePlace | internal/adapters/secondary/queue/memory.go:31-135 | in every reachable state an enqueued job occurs exactly once over all active lists, the delayed map, the dead letters, the slots and the completed jobs; a job saved but not yet enqueued occurs nowhere |
| Safety.OneWorkerPerJob | internal/core/services/processor.go:48-110 | no two slots ever have the same job in hand |
| Safety.RunnerCapacity | internal/adapters/primary/worker/runner.go:78-84 | the jobs in the hands of a runner's slots never number more than maxConcurrent |
| Safety.WorkerNamesDiffer | internal/adapters/primary/worker/runner.go:83 | no two slots go by the same worker name |
| Safety.StatusAgrees | internal/core/services/processor.go:140-193 | listed jobs are pending under their own priority, delayed jobs scheduled for their own time, dead letters exactly the dead jobs no worker holds, failed and processing only in a worker's hands, also while trailing UpdateJob calls are outstanding |
| Lifecycle.RunCell | internal/core/domain/job.go:49-80 | identity, type, priority, payload, creation time and submitted policy never change; final and parked jobs never change again but for the update time |
| Lifecycle.FinalStays | internal/core/domain/job.go:61-80 | a completed job stays completed, a dead letter stays a dead letter, with no further attempt |
| Lifecycle.UnnamedPriorityParks | internal/core/services/schedular.go:58-61 | a job listed under a priority outside 1..4 stays pending in that list for ever |
| Lifecycle.Provenance | internal/core/services/schedular.go:44-74 | at any later time a job carries the creation time, type and payload of its request, its priority (2 for 0) and its policy (3 attempts, 30 s, 30 min, exponential if it has none) |
| Lifecycle.AttemptsBounded | internal/core/services/processor.go:140-183 | at most max(1, MaxAttempts - c0) attempts, and a dead letter exactly when that many have all failed and the worker has let go |
| Lifecycle.RetrySpacing | internal/core/domain/retry.go:42-71 | processing after m failures starts no earlier than the creation plus the delays after attempts c0+1 to c0+m |
| Lifecycle.ExponentialSpacing | internal/core/domain/retry.go:60-61 | for uncapped exponential backoff without overflow and c0 = 0, that is at least BaseDelay * (2^(m+1) - 2) |
| Lifecycle.LastFailure | internal/core/domain/retry.go:42-46 | whenever a slot has a failed job in hand, it has marked it as failed with its last action, which counted one attempt and noted the time it read |
| Lifecycle.RetriesExact | internal/core/services/processor.go:145-148 | if c0 >= 0, BaseDelay >= 0 and the delay after MaxAttempts-1 attempts (2^(MaxAttempts-1) * BaseDelay, (MaxAttempts-1) * BaseDelay or BaseDelay, by strategy) is below 2^63, every retry in every run is set to exactly min(delay, MaxDelay) after the time read by the MarkFailed with which the same slot counted that attempt |
| Lifecycle.NoHandlerEndsDead | internal/core/services/processor.go:112-119 | a job type without a handler never completes; out of queue and hands it is a dead letter after exactly max(1, MaxAttempts - c0) attempts |
| ScheduledStart.NeverEarly | internal/core/services/schedular.go:70-74 | in every run a job asked for a later time t stays scheduled for t until then and is never marked as processing before t |
| ScheduledStart.DispatchedAsAsked | internal/core/services/schedular.go:106-111 | in every run the queue call of a request delays the job until the time asked for, if that is later than the time checked, and else appends it to the list of its priority |
| Fifo.StepOrder | internal/adapters/secondary/queue/memory.go:31-66 | each action adds to a priority's list at the back and takes from the front |
| Fifo.FirstInFirstOut | internal/adapters/secondary/queue/memory.go:45-66 | in every run and for every priority, the ids ever added are the ids taken so far followed by the current list |
| Fifo.PriorityRespected | internal/adapters/primary/worker/runner.go:41 | a worker gets the head of its list only while every higher list is empty, and gets nothing exactly when all four named lists are empty |
| Conservation.StepBalances | internal/core/services/processor.go:121-193 | every action keeps the balance of collections, places, counters and program points |
| Conservation.StatisticsAccount | internal/adapters/secondary/queue/memory.go:88-103 | in every reachable state active + delayed + dead + worker-held + completed is the number of enqueued jobs |
| Conservation.StatisticsMeaning | internal/adapters/secondary/queue/memory.go:88-103 | in every reachable state the dead, delayed and per-priority active counts are the numbers of enqueued jobs in no worker's hands that are dead, scheduled, or pending under that priority |
| Conservation.CountersConserved | internal/core/services/processor.go:132-185 | when no call is in progress: failed = retried + dead-lettered, handler returns = completed + failed, scheduled = completed + dead-lettered + active + delayed |
| Drain.StepDecreases | internal/core/services/processor.go:48-193 | every productive action lowers a measure of the work left, and no other action but a new request changes it |
| Drain.WorkBounded | internal/core/services/processor.go:48-193 | without new requests a run does at most as many productive actions as the measure says, whatever the handlers return |
| Drain.StuckIsDrained | internal/adapters/secondary/queue/memory.go:45-66 | when no productive action is left, no call is in progress and each job is completed or in the dead letters if and only if it is not listed under an unnamed priority |
| Drain.DrainTerminates | internal/adapters/secondary/queue/memory.go:105-135 | a run without new requests that goes on until nothing is left ends with every job completed or dead, exactly but for those listed under an unnamed priority |
| Drain.DrainPossible | internal/core/services/processor.go:48-61 | from every reachable state some run drains the service |
| HistoryLedger.StepKeepsHistory | internal/core/services/processor.go:72-107 | every action keeps the one-to-one relation between attempts begun, records in slots and records saved |
| HistoryLedger.HistoryComplete | internal/core/services/processor.go:72-107 | when no call for a job is in progress its saved attempt numbers are exactly c0+1..c0+n, each once, all unsuccessful but the last of a completed job, and CurrentAttempts is c0 plus the failures |
| HistoryLedger.HistorySpacing | internal/core/services/processor.go:76-77 | every saved attempt started no earlier than the creation plus the delays after the attempts before it |
| HistoryLedger.HistoryInOrder | internal/adapters/secondary/storage/memory.go:102-109 | if no attempt of a job begins while an earlier call for that job has its record still to save, the job's records are saved in the order of its attempts, whatever the calls for other jobs do |
| BackoffTheorems.ExponentialExactIff | internal/core/domain/retry.go:60-61 | the exponential delay is the true product if and only if the product is below 2^63, whatever an out-of-range conversion yields |
| BackoffTheorems.ExponentialCappedIff | internal/core/domain/retry.go:60-68 | the capped delay is min(2^n * BaseDelay, MaxDelay) if and only if the product is below 2^63 or, wrapped to 64 bits, still reaches the cap (from n = 63 on with the converted value in place of the power) |
| BackoffTheorems.ExponentialMonotone | internal/core/domain/retry.go:60-68 | while the products fit, delays never shrink with the number of attempts |
| BackoffTheorems.StrategiesOrdered | internal/core/domain/retry.go:55-68 | fixed <= linear <= exponential for n >= 1 while the exponential product fits |
| BackoffTheorems.DelayExactIff | internal/core/domain/retry.go:53-64 | for every strategy, the delay before the cap is the exact one if and only if that is below 2^63 |
| BackoffTheorems.DelayWraps | internal/core/domain/retry.go:53-68 | for any number of attempts: linear delays and exponential ones up to 2^62 are the product modulo 2^64, negative powers give no delay, any other strategy the base delay; then the cap |
| BackoffTheorems.RetryPathExact | internal/core/domain/job.go:49-51 | for every strategy, a retry let through by CanRetry computes its delay exactly if the largest delay of the budget fits |
| BackoffTheorems.DefaultBoundary | internal/config/config.go:43-45 | with the default base of 30 s the delay is exact if and only if n <= 28, and negative at 29 |
| BackoffTheorems.ExponentialSum | internal/core/domain/retry.go:60-70 | the first m uncapped exponential delays add up to BaseDelay * (2^(m+1) - 2) |
| MemoryQueueSpec.DueIsExact | internal/adapters/secondary/queue/memory.go:112-117 | the first pass finds exactly the ids whose time has come, each once, for every visiting order |
| MemoryQueueSpec.DueInOrder | internal/adapters/secondary/queue/memory.go:113-117 | due ids are found in the order of the visits |
| MemoryQueueSpec.PromoteAllEffect | internal/adapters/secondary/queue/memory.go:119-132 | the second pass removes exactly the ready ids that have a job reference and appends them, in order, to the lists of their priorities |
| MemoryQueueSpec.ProcessDelayedPartitions | internal/adapters/secondary/queue/memory.go:105-135 | for every visiting order the map keeps just the later entries (or those without a job), and each list grows by the due ids of its priority, each once |
| MemoryQueueSpec.DequeueHead | internal/adapters/secondary/queue/memory.go:45-66 | with an intact index Dequeue takes the head of the first non-empty list of the order, or nothing if all are empty |
| MemoryQueueSpec.DequeueDrops | internal/adapters/secondary/queue/memory.go:50-66 | on any queue and for any order, repeated priorities included, Dequeue drops just the heads without a job reference at its looks before the one that succeeds, and takes the head found there |
| MemoryQueueSpec.RunnerTakesHighest | internal/adapters/primary/worker/runner.go:41 | with the runner's order no higher list is passed over, and something is found exactly when a named list is non-empty |
| MemoryQueue.Queue.constructor | internal/adapters/secondary/queue/memory.go:22-29 | the new queue is empty |
| MemoryQueue.Queue.Enqueue | internal/adapters/secondary/queue/memory.go:31-43 | files the reference and appends the id to its priority's list |
| MemoryQueue.Queue.Dequeue | internal/adapters/secondary/queue/memory.go:45-66 | the loop returns and removes what the specification does, skipping ids without a job |
| MemoryQueue.Queue.EnqueueDelayed | internal/adapters/secondary/queue/memory.go:68-77 | files the reference and the due time |
| MemoryQueue.Queue.MoveToDeadLetter | internal/adapters/secondary/queue/memory.go:79-86 | appends to the dead letters and nothing else |
| MemoryQueue.Queue.GetQueueStats | internal/adapters/secondary/queue/memory.go:88-103 | the loop reports the length of every list as active, the size of the delayed map as delayed and the number of dead letters as dead |
| MemoryQueue.Queue.FindReady | internal/adapters/secondary/queue/memory.go:112-117 | the first loop collects the due ids in visiting order |
| MemoryQueue.Queue.MoveReady | internal/adapters/secondary/queue/memory.go:119-132 | the second loop promotes the ready ids and sets exactly their jobs to pending |
| MemoryQueue.Queue.ProcessDelayedJobs | internal/adapters/secondary/queue/memory.go:105-135 | both loops together: the specified partition, and pending status for exactly the due jobs |
| MemoryStorage.Storage.SaveJob | internal/adapters/secondary/storage/memory.go:29-36 | files the job under its id |
| MemoryStorage.Storage.UpdateJob | internal/adapters/secondary/storage/memory.go:50-62 | fails without effect exactly for unknown ids, else stamps and files the job |
| MemoryStorage.Storage.SaveJobHistory | internal/adapters/secondary/storage/memory.go:102-109 | appends to the records of the job |
| MemoryStorage.Storage.ListJobs | internal/adapters/secondary/storage/memory.go:64-100 | for every visiting order: of the visits to jobs with the status, type and priority asked for, in visiting order, the page is those from max(Offset, 0) on, at most Limit (all if Limit <= 0) |
| MemoryStorage.PageFull | internal/adapters/secondary/storage/memory.go:90-93 | stopping at the limit loses nothing: the rest of the table cannot change the page |
| MemoryStorage.PagesConcatenate | internal/adapters/secondary/storage/memory.go:64-100 | consecutive pages concatenate to a prefix of the filtered list, and enough of them to all of it |
| JobEntity.Job.MarkAsProcessing | internal/core/domain/job.go:53-59 | sets status, worker and the two times to the given values and leaves every other field |
| JobEntity.Job.MarkAsCompleted | internal/core/domain/job.go:61-66 | sets status and the two times and leaves every other field |
| JobEntity.Job.MarkAsFailed | internal/core/domain/job.go:68-75 | sets status, error and times, counts the attempt, notes its time, and leaves every other field |
| JobEntity.Job.MarkAsDead | internal/core/domain/job.go:77-80 | sets status and update time and leaves every other field |
| Services.Processor.RegisterHandler | internal/core/services/processor.go:43-45 | adds the type to the handlers |
| Services.Processor.HandleSuccess | internal/core/services/processor.go:121-138 | job, storage and counters after a success, also when the storage does not know the job |
| Services.Processor.HandleFailure | internal/core/services/processor.go:140-193 | error, times and attempt counter; a retry at the attempt's time plus its delay and in the delayed map exactly if attempts are left, else a dead letter; storage and counters, also when the storage does not know the job |
| Services.Processor.ExecuteJob | internal/core/services/processor.go:112-119 | the handler's answer, or the error that there is none |
| Services.Processor.Conclude | internal/core/services/processor.go:95-107 | the outcome decides between success and failure and is saved in the history |
| Services.Processor.ProcessJob | internal/core/services/processor.go:64-110 | the whole effect of one call: it returns the handler's answer, or an error without handler; the job ends completed if and only if its type has a handler that returned no error; job fields, queue, storage, history record and counters; also when the storage does not know the job |
| Services.ProcessNextJob | internal/core/services/processor.go:48-61 | the effect of a worker's turn: no job, a job unknown to the storage, or a processed one, completed if and only if its type has a handler that returned no error; no other job changes |
| Services.Scheduler.ScheduleJob | internal/core/services/schedular.go:44-104 | the job's type, payload, priority (2 for 0) and policy or default, scheduled for the time asked for exactly if that is later than the time checked; saved, then delayed or listed, and counted |
| Services.CallAlone | internal/core/services/processor.go:64-193 | the slot operations of an uninterrupted call change job, queue, counters and history exactly as the method ProcessJob does, and complete the job if and only if its type has a handler that returned no error |
| Services.RequestAlone | internal/core/services/schedular.go:76-111 | the actions of an uninterrupted request change storage, queue and counter exactly as the method ScheduleJob does |
| QueueRefinement.MemoryStepRefines | internal/adapters/secondary/queue/memory.go:31-135 | each call on the memory queue returns and does what the abstract queue does |
| QueueRefinement.RedisStepRefines | internal/adapters/secondary/queue/redis.go:43-134 | each call on the Redis queue returns and does what the abstract queue does, each list being the reverse of its line; a push promotes, and the removal that follows it, with any other calls in between, changes nothing |
| QueueRefinement.RedisPromotesWithinASecond | internal/adapters/secondary/queue/redis.go:105-112 | the reply to a Redis pass has an entry of every id due by the exact test since the epoch, and entries still to be promoted only if due in less than a second |
| QueueRefinement.MemoryRunRefines | internal/adapters/secondary/queue/memory.go:31-135 | over any sequence of legal calls the memory queue hands out what the abstract queue hands out |
| QueueRefinement.RedisRunRefines | internal/adapters/secondary/queue/redis.go:43-134 | over any sequence of legal calls, with pushes and removals as calls of their own, the Redis queue hands out what the abstract queue hands out |
| QueueRefinement.QueuesAgree | internal/adapters/secondary/queue/redis.go:43-103 | from empty, both queues hand out the same ids for the same operations |
| QueueRefinement.UnnamedPrioritiesDiffer | internal/core/domain/priority.go:40-47 | for any priority outside 1..4, put in any memory queue with an intact index the job is never handed out, whatever usual calls follow; put in any Redis database it is handed out after the entries before it |
| ServiceRefinement.CallLegal | internal/core/services/processor.go:145-175 | every queue call of the service is a sequence of legal operations: no job is delayed twice or changes priority, and a pass promotes delayed jobs only, each once |
| ServiceRefinement.ServiceRefines | internal/core/services/processor.go:48-193 | in every run with named priorities the queue follows the abstract queue and workers get exactly the ids it gives out |
| RedisSpec.NamesDistinct | internal/core/domain/priority.go:30-47 | the four lists and the dead letters have different keys |
| RedisSpec.KeyNames | internal/core/domain/priority.go:30-47 | the key of every priority |
| RedisSpec.UnnamedIsMedium | internal/core/domain/priority.go:40-47 | any other priority shares the medium list |
| RedisSpec.WholeSecondTest | internal/adapters/secondary/queue/redis.go:89-112 | the whole-second test passes whatever the exact test passes from the epoch on, and nothing due a second or more later |
| RedisSpec.PassEffect | internal/adapters/secondary/queue/redis.go:118-131 | whatever pushes and removals fail, a pass pushes an entry at most once, to its own list and only if well-formed, and takes it out exactly if both commands succeed |
| RedisSpec.UninterruptedPass | internal/adapters/secondary/queue/redis.go:105-134 | a pass in which every command succeeds takes out exactly the well-formed due entries and pushes each exactly once to its list |
| RedisQueue.Queue.Enqueue | internal/adapters/secondary/queue/redis.go:43-53 | pushes the copy in front of the list of its priority and changes nothing else |
| RedisQueue.Queue.Dequeue | internal/adapters/secondary/queue/redis.go:55-81 | the loop builds the keys in order; pops the oldest entry of the first non-empty list; malformed entries are gone and reported |
| RedisQueue.Queue.EnqueueDelayed | internal/adapters/secondary/queue/redis.go:83-94 | adds the copy with the whole second of its due time as score and changes nothing else |
| RedisQueue.Queue.MoveToDeadLetter | internal/adapters/secondary/queue/redis.go:96-103 | pushes the copy in front of the dead letters and changes nothing else |
| RedisQueue.Queue.ProcessDelayedJobs | internal/adapters/secondary/queue/redis.go:105-134 | the loop pushes and then removes each decodable entry, going on after failed commands; which entries leave and how often each is pushed, for all combinations of failures |
| RedisPromotion.StepPushedFirst | internal/adapters/secondary/queue/redis.go:118-131 | every command keeps: removals of an entry plus pushes awaiting removal never exceed its pushes |
| RedisPromotion.NothingLost | internal/adapters/secondary/queue/redis.go:105-134 | with any callers, failures and crashes, as often as an entry left the delayed set it was pushed, and waits in its list or was handed out; malformed entries never leave |
| RedisPromotion.PushedOnce | internal/adapters/secondary/queue/redis.go:118-131 | with one pass at a time that is not cut off between push and removal, an entry is pushed at most once each time it is delayed, and exactly once by the time it has left |
| RedisPromotion.TwoCallersPushTwice | internal/adapters/secondary/queue/redis.go:105-134 | in any state in which two callers have the same entry to push, it can be pushed twice, more often than it was delayed |
| RedisPromotion.BothScan | internal/adapters/secondary/queue/redis.go:109-112 | two callers that scan while an entry is due both have it to push |
| RedisPromotion.NotRemovedPushedAgain | internal/adapters/secondary/queue/redis.go:125-130 | in any state in which an entry has been pushed and its removal fails or the caller stops, the next pass can push it again, more often than it was delayed |
| ByValueInvariant.StepKeeps | internal/core/services/processor.go:64-193 | with orderly passes, every step keeps one live copy or one worker per job, in agreement with the record when no call is in progress, and accounts for entries between push and removal, if calls for a job do not overlap, or if no job is promoted while a call for it is in progress |
| ByValueTheorems.CopiesAgree | internal/core/services/processor.go:140-193 | in runs under either discipline, whenever no call for its job is in progress, a queued, delayed or dead copy equals its stored record but for the update time if and only if it is not a delayed entry that was pushed and taken and is still to be removed |
| ByValueTheorems.WindowDisagrees | internal/adapters/secondary/queue/redis.go:124-130 | wherever an entry is about to be pushed with no call for its job in progress and a worker free, the entry can disagree with the record between push and removal |
| ByValueTheorems.UnremovedDisagrees | internal/adapters/secondary/queue/redis.go:129-130 | there, a removal that fails or a pass cut off before it leaves a copy that disagrees |
| ByValueTheorems.TwoPassesDisagree | internal/adapters/secondary/queue/redis.go:105-134 | two passes with the same entry to push can bring back a completed job |
| ByValueTheorems.UpdateLost | internal/core/services/processor.go:187 | if one worker has put a job back and not made its last UpdateJob and another has taken it again, the stored record can end behind the copy, whether the second failure retries or buries the job |
| ByValueTheorems.OverlapExact | internal/core/services/processor.go:48-61 | from any invariant state, handing out a job can lead to a disagreement if and only if a call for it is in progress |
| ByValueTheorems.PromotionExact | internal/adapters/secondary/queue/redis.go:124-127 | with a worker free, pushing a due entry can lead to a disagreement if and only if a call for its job is in progress |
| ByValueTheorems.OverlapHappens | internal/core/services/processor.go:151-187 | from every initial state with two workers and a promoter such a disagreement is reached, with orderly passes |
| ByValueTheorems.StartsWithinASecond | internal/adapters/secondary/queue/redis.go:89-112 | in every run, with overlapping calls and with passes that interleave, fail or are cut off, no job starts a second or more before its scheduled time |
| ByValueRequests.NeverASecondEarly | internal/core/services/schedular.go:70-74 | with Redis, in every run, a job asked for a later time never starts a second or more before that time |
| ByValueRequests.ScanReply | internal/adapters/secondary/queue/redis.go:109-122 | a decoded reply of ZRANGEBYSCORE is a reply that the by-value model allows |
| ByValueRequests.SuccessByValue | internal/core/services/processor.go:64-138 | the by-value steps of a successful call write what ProcessJob writes |
| ByValueRequests.FailureByValue | internal/core/services/processor.go:140-193 | the by-value steps of a failed call write what ProcessJob writes and put the copy where it does |

## Left out

- Postgres storage: GORM calls, SQL and JSON columns are not modelled; only "write the whole record by id" is used, in `ByValue`.
- HTTP handler, program wiring and signals: requests and promotion passes are actions that may happen at any time; shutdown of worker slots is not modelled.
- Concrete handlers for mail and payments: a handler may succeed or fail arbitrarily, and a timeout is one more failure.
- Logging: no logger and no printed line is modelled; of the metrics only the five counters are kept.
- Worker registration, heartbeats and stale workers: not used by the flow of jobs.
- Environment variables: the default configuration is a constant policy; requests may carry any other policy.
- UUID generation: ids are fresh. Job metadata, the history record's own id and its duration are left out.
- Redis connection, blocking time of BRPOP and error texts: a command succeeds, or fails without effect where the failure matters; GetQueueStats of the Redis queue is left out.
- JSON codec: encoding and decoding a job round-trips; any other stored text is a malformed entry.
- Floating point: scores and the powers of two are taken as exact, which they are for whole seconds below 2^53; a power from 2^63 on is converted to an arbitrary 64-bit value.
- Attempt counters and times are unbounded integers; only `time.Duration` has 64 bits.
- Iteration order of Go maps, clock readings and the handler's answer are parameters, quantified over in every result.
- BackoffTheorems.ExponentialMonotone: not stated past the overflow, where the wrapped delays have no order.
- ByValueTheorems.CopiesAgree: the sub-steps of ProcessJob between two port calls are one step each, since no other process can see a worker's own copy; workers take active copies in any order; port calls other than pushes and removals of a pass do not fail.
- QueueRefinement.QueuesAgree: is about ids, not statuses, because only the memory queue resets the status on promotion.

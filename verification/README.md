# Job engine, restore and season specs: a verified model

This project models the parts of the program where state, failures and time meet, and
proves what they guarantee.

**The job engine** (`src/jobs/`). `Scheduler`, `Running`, `Reliability` and `Store` hold the
program's classes, field by field, each method proved against a function of the old state.
`Worker` is the worker loop with the API around it as a state machine: an action is one
critical section, every file write may land, fail, or be reported failed although it landed,
and a crash may come between any two actions. `Loop` holds the worker's own methods and ties
them back to the machine; `Api` holds the calls of the job queue. `Ledger`, `Bounded`, `Keys`,
`Durable`, `Crew`, `Breakers`, `Probe`, `Timing`, `Retrying`, `Startup`, `Shutdown` and `Events` prove
what holds over all runs; `Scenario`, `Incidents` and `Refusals` build whole runs in which a promise is broken; `Recovery` and
`Seniority` are what start-up does with old jobs; `Fairness` and `Order` are what the scheduling order promises.

**The restore** (`src/services/backup.rs`). `Backup` holds the staged restore over a tree of
files and directories, with a fault plan that can fail or kill the process at every single
file operation; `Restore` proves what is on disk after any number of start-ups, `Writing` what
can be written at all, `Completion` which requests complete, and `Undo` when a failed restore
is undone; `Paths` is the check on archive paths.

**Season specs** (`src/models/subscription.rs`, `src/api/utils.rs`). `Season` parses, prints
and normalises over real strings, `SeasonSpec` says what a request asks for; `Text` has the string functions of the standard library.

## Reading the model

- A job's payload is its text and the subscription id found in it. The hash inside an
  idempotency key is taken to be injective, so keys are compared before hashing.
- `Write` is the fate of one atomic file write; `Fault` adds the death of the process. Wherever
  the clock, a random id, a hash byte, a directory order or a text-based error class enters,
  it is a parameter.
- A wake-up signal may arrive for any id at any time (`Absorb`), which covers the channel,
  the retry timers and lost or repeated signals alike. A job body may report at any time,
  even after its task was given up. Submissions may land in any phase after start-up.
- The methods of `Loop` and `Api` that look a job up require distinct ids on the list, and the dispatch
  loop an intact scheduler: `Bounded.TransferKeysStayDistinct` and `Crew.WorkerInvariant` show both of
  every reachable state. Runs start from any well-formed job file, an empty one among them.
- A directory's own path strings are canonical (`CanonicalKeys`), its files lie in its directories
  and no path is both (`IsTree`), and `Lists` says that every directory can be listed, in whatever order.
- A write is refused for good by its name (a NUL, or too long, which `fits` of the configuration decides),
  by a directory in its place, or by a file above it. A write refused for its name has made the directories
  above its file by then, as far as `dirFits` takes them. Every other failure is a fault of the plan.
- One selection reads the clock once; the program reads it again for each job it asks about. If a
  breaker's minute ends in the middle of a selection, the program may pass over one job of the class
  and take a later one, which the model never does in the same selection.
- `Starts` and the kinds by id are history variables of the machine: they record the run and
  influence nothing.

## Where the promise and the code differ

- Idempotency keys stay distinct for the transfer kinds. For the other kinds an automatic
  retry may revive a job while a newer one with its key is live (`Incidents.RetryDuplicates`);
  `Keys.LiveKeysIff` says exactly when.
- A breaker's probe is lost if the probing job leaves the list between its end and its
  judging (`Incidents.ProbeLeaks`); the class then never runs again in that process
  (`Probe.WedgedForGood`).
- Three updates end a job without looking whether it already ended: a scrape that finds its
  subscription missing, the mark at shutdown, which goes by a list taken before
  (`src/jobs/worker.rs:410-427`), and the mark of a submission whose wake-up failed
  (`src/jobs/queue.rs:483-494`). A canceled or succeeded job may end as failed, and the event
  timeline refuses that step (`Refusals.MissingRefused`, `Refusals.SuccessRefused`, `Refusals.GoneRefused`).
- The event timeline subscribes after start-up recovery (`src/app.rs:115-126`), so what
  recovery does to a job never reaches its event (`Events.StartUpKeepsTimelineIff`).
- Rollback compares archive paths as written. A name such as `a//b` makes it delete the
  original `a/b` (`Undo.DoubledSlashLosesFile`). Likewise for an original file that snapshots skip, such as
  `x.tmp` or a nested `restart-required.json`, if the archive names it (`Undo.SkippedFileIsLost`).
- A directory with a visible file that is not valid UTF-8 can be backed up, but no restore
  over it ever completes (`Completion.CompletesIff`).
- An archive may pass every check and still not be writable: a name with a NUL, or `a` beside
  `a/b` (`Completion.AcceptedButUnwritable`), or a target that is a directory of the original. Its
  request is accepted, and no start-up ever completes it (`Completion.CompletesIff`).
- The comment on `normalize_season_list` says that seasons are clamped to 1-99
  (`src/models/subscription.rs:580-583`); the code drops those out of range, and so does the
  model. Normalising an empty stored list turns a wider range into season 1, and a range that
  starts at 99 is not a fixed point after one pass.

## Model

| member | source | states |
|---|---|---|
| `JobModel.KeyIsInjective` | src/jobs/model.rs:175-178 | two jobs with the same idempotency key (before hashing) have the same kind and the same payload text |
| `Scheduler.FairPriorityQueue.Push` | src/jobs/scheduler.rs:78-88 | a job joins the back of its subscription's group, or a new group at the back of the deque |
| `Scheduler.FairPriorityQueue.PopNext` | src/jobs/scheduler.rs:90-105 | the rotating search returns the head of the first group that may run; the groups passed over and the rest of the served group end up at the back, and a failed search leaves the deque as it was |
| `Scheduler.FairPriorityQueue.Remove` | src/jobs/scheduler.rs:107-112 | the id disappears from every group and emptied groups are dropped |
| `Scheduler.SameTurnIff` | src/jobs/scheduler.rs:121-177 | two jobs take turns in one group exactly if their payloads name the same subscription, whatever their kinds, or they are of one kind and name none; a manual transfer never takes a subscription's turn |
| `Scheduler.PushKeepsQueue` | src/jobs/scheduler.rs:78-88 | pushing keeps groups non-empty, keys distinct and ids single, and adds exactly the job |
| `Order.FirstInFirstOut` | src/jobs/scheduler.rs:78-105 | FIFO inside a group: a job pushed while another of its priority waits in its group comes out only after that one, over any pushes of other ids and any pops under any admissions |
| `Order.AheadLeavesFirst` | src/jobs/scheduler.rs:78-105 | of two jobs waiting in one group the earlier always leaves first, over any such pushes and pops |
| `Scheduler.PopKeepsQueue` | src/jobs/scheduler.rs:90-105 | popping keeps the queue's structure, removes exactly the returned job, and returns nothing only when no group head may run |
| `Scheduler.RemoveKeepsQueue` | src/jobs/scheduler.rs:107-112 | removing keeps the queue's structure and takes away exactly the jobs with that id |
| `Scheduler.FairScheduler.Push` | src/jobs/scheduler.rs:31-38 | a job already waiting is replaced by its new snapshot in the queue of its new priority |
| `Scheduler.FairScheduler.PopNext` | src/jobs/scheduler.rs:40-50 | the six slots are tried from the cursor; the new state is that of the first slot with an admissible head, and the cursor stands behind it |
| `Scheduler.FairScheduler.Remove` | src/jobs/scheduler.rs:56-61 | the id leaves all three queues and the pending set |
| `Scheduler.FairScheduler.IsEmpty` | src/jobs/scheduler.rs:52-54 | empty means that no id is pending |
| `Scheduler.FairScheduler.constructor` | src/jobs/scheduler.rs:22-28 | a new scheduler holds nothing and starts at the first slot |
| `Scheduler.PushKeepsSched` | src/jobs/scheduler.rs:31-38 | after any push the pending ids are exactly the ids held, each once and under its own priority; the pushed job replaces its own older snapshot and no other |
| `Scheduler.PopKeepsSched` | src/jobs/scheduler.rs:40-50 | after any pop the structure holds, the popped job is gone for good, and None means nothing moved and every group head was refused |
| `Scheduler.RemoveKeepsSched` | src/jobs/scheduler.rs:56-61 | removal keeps the structure and takes exactly the jobs of that id |
| `Fairness.RoundRobinIsExact` | src/jobs/scheduler.rs:90-105 | with every job admissible, job k of the group at position p comes out after exactly k + the sum of min(len, k+1) over the groups ahead + the sum of min(len, k) over those behind, and every job comes out once |
| `Fairness.PopTowards` | src/jobs/scheduler.rs:40-50 | a pop while a priority has an admissible head serves it, or serves another and brings its slot strictly nearer |
| `Fairness.ReadyPriorityIsServed` | src/jobs/scheduler.rs:12-19 | a priority that always has an admissible head is served within any 2 (High), 4 (Normal) or 6 (Low) consecutive successful pops, whatever else is pushed or removed |
| `Fairness.AllReadyFollowsSlots` | src/jobs/scheduler.rs:12-19 | if all three priorities always have one, every six consecutive pops are exactly three High, two Normal and one Low, in slot order |
| `Fairness.HeadWaitIsBounded` | src/jobs/scheduler.rs:40-50 | a job at the head of the group at position p is popped within Period x (p+1) pops under any pushes of other ids: a Low head waits at most 6(p+1) |
| `Running.FromSettings` | src/jobs/scheduler.rs:188-206 | every limit is its own setting, or the nearest number from 1 to the global limit, which is at least 1 |
| `Running.RunningJobs.MayStart` | src/jobs/scheduler.rs:226-245 | the admission test answers the layered condition on the counters |
| `Running.RunningJobs.Started` | src/jobs/scheduler.rs:247-257 | the counters of the job's class, subscription and bulk flag go up by one |
| `Running.RunningJobs.Finished` | src/jobs/scheduler.rs:259-270 | the same counters go down by one, saturating, and zero entries are removed |
| `Running.StartReflects` | src/jobs/scheduler.rs:247-257 | counters that count a task list count it with the started job added |
| `Running.FinishReflects` | src/jobs/scheduler.rs:259-279 | counters that count a task list count it with the finished task removed, for any task of the list |
| `Running.CanStartMeans` | src/jobs/scheduler.rs:226-245 | said of the tasks themselves: admitted exactly if below the global and the class limit, no bulk scrape runs, a bulk scrape finds no subscription job, and nobody else works on the subscription |
| `Running.AdmittedIff` | src/jobs/scheduler.rs:149-245 | in the words of the jobs: admitted exactly if there is room for the kind, no scrape of all subscriptions runs, and, manual transfers apart, nobody works for the job's subscription, or for any if it is itself such a scrape |
| `Running.StartKeepsExclusive` | src/jobs/scheduler.rs:226-257 | an admitted start keeps the tasks exclusive and within both limits |
| `Running.FinishKeepsExclusive` | src/jobs/scheduler.rs:259-270 | finishing any task keeps the others exclusive |
| `Reliability.DelayRange` | src/jobs/reliability.rs:85-91 | every delay lies in 1..300, within a fifth of its doubling base, for every digest byte; both ends are reached |
| `Reliability.DelaysGrowIff` | src/jobs/reliability.rs:85-91 | each delay exceeds the one before for all digests exactly for attempts 1 to 6; from attempt 7 on the cap makes it false |
| `Reliability.JitterIsEven` | src/jobs/reliability.rs:85-91 | below the cap, mirrored digests give delays that average to the doubling base, which needs a division that truncates toward zero |
| `Reliability.CircuitBreakers.Allow` | src/jobs/reliability.rs:106-116 | answers and marks the probe of the asked class only |
| `Reliability.CircuitBreakers.RecordSuccess` | src/jobs/reliability.rs:118-120 | closes and resets the breaker of that class only |
| `Reliability.CircuitBreakers.RecordFailure` | src/jobs/reliability.rs:122-134 | a retryable failure counts, ends the probe and opens at the third; any other failure resets |
| `Reliability.CircuitBreakers.ReleaseProbe` | src/jobs/reliability.rs:136-140 | only the probe flag of that class is cleared |
| `Reliability.BreakerIsItsHistory` | src/jobs/reliability.rs:94-140 | for every history: the failure count is the run of retryable failures ending the outcomes, the breaker is open exactly if that run is at least three long, open since the last of them, and the probe flag is set exactly if a probe was granted and nothing reported since |
| `Reliability.AllowedMeans` | src/jobs/reliability.rs:106-116 | a class may run exactly if fewer than three retryable failures end its outcomes, or 60 seconds have passed since the last and no probe is out |
| `Breakers.BreakersAreTheirRuns` | src/jobs/worker.rs:552-580 | in every reachable state each class's breaker is what the run since the last crash has told it, read off the listed jobs: open exactly if the last three outcomes are failures that may pass, since the last of them; letting a job through unless it is open and a minute has not passed or a probe is out |
| `Breakers.BreakerStep` | src/jobs/worker.rs:552-580 | every single step tells a breaker exactly what the jobs say: asked at a selection, released at a claim that starts nothing, and at the judging success, failure with its class, or released |
| `Breakers.SelectedIsAllowed` | src/jobs/worker.rs:173-177 | a job is selected only if the breaker of its kind lets it through |
| `Reliability.SelectionMarksOneProbe` | src/jobs/worker.rs:173-177 | running the selection closure over any refused jobs and one accepted job changes the breaker of the accepted job's class only |
| `Store.TruncateJobs` | src/jobs/store.rs:404-417 | the loop over the list computes the truncation |
| `Store.TruncationMeans` | src/jobs/store.rs:404-417 | every live job stays, the list is cut to capacity if there are enough terminal jobs, and otherwise only live jobs are left |
| `Store.DropTerminalCuts` | src/jobs/store.rs:404-417 | eviction drops exactly min(excess, terminal count) terminal jobs, the oldest ones, and keeps the order of the rest |
| `Store.TruncationCuts` | src/jobs/store.rs:404-417 | in the words of the jobs: a list of more than 500 loses its oldest ended jobs, as many as it is over or all there are, and nothing behind them is touched |
| `Store.JobStore.constructor` | src/jobs/store.rs:32-48 | a store before loading: an empty list beside its two files |
| `Store.JobStore.Load` | src/jobs/store.rs:56-96 | a load that succeeds leaves list and file equal to the truncated old file; one that fails leaves the list alone |
| `Store.JobStore.ReplaceMemory` | src/jobs/store.rs:342-348 | list and id index are replaced together |
| `Store.JobStore.Commit` | src/jobs/store.rs:351-373 | the file is written before the list changes: a failed write leaves the list, and leaves the file old or new |
| `Store.JobStore.Get` | src/jobs/store.rs:136-141 | lookup through the index finds what a search of the list finds |
| `Store.IndexAgreesIff` | src/jobs/store.rs:395-402 | the index built from a list agrees with linear search for every id exactly if no id is on the list twice |
| `Store.JobStore.AddIdempotent` | src/jobs/store.rs:112-134 | returns the newest live job with the same key, otherwise appends, truncates and writes |
| `Store.ExistingIsNewest` | src/jobs/store.rs:112-134 | the live job a submission finds is the one listed last of those with its key that are queued or running |
| `Store.JobStore.UpdateIf` | src/jobs/store.rs:158-219 | edits the first job with the id if the closure agrees; a refused edit writes nothing |
| `Store.JobStore.Compact` | src/jobs/store.rs:221-229 | the list is truncated and written |
| `Store.JobStore.ArchiveCompleted` | src/jobs/store.rs:231-262 | the archive file is written first, then the job file, with any fate of either write; the answer is the number of ended jobs beyond those retained |
| `Store.SelectIsDrop` | src/jobs/store.rs:231-262 | with distinct ids, splitting the list by the set of moved ids is moving the oldest surplus terminal jobs and keeping the rest in order |
| `Store.ArchivingConserves` | src/jobs/store.rs:231-262 | jobs on the list, in the archive and cut off by its cap are together exactly what list and archive were before; all live jobs stay in order |
| `Store.ArchivingMeans` | src/jobs/store.rs:231-262 | archiving does nothing exactly if no more jobs have ended than are retained; otherwise exactly the oldest ended jobs beyond those move, in order, behind the archived ones, and of these the newest stay up to the cap |
| `Store.ArchivingSurvivesCrash` | src/jobs/store.rs:231-262 | whatever becomes of the two writes, and whatever an earlier write in doubt left in the job file: an archived job stays archived, and a listed job is in one of the files or the job file was not touched, unless the archive cap cut it off |
| `Store.JobStore.ClearFinished` | src/jobs/store.rs:280-300 | terminal jobs leave the list, then the archive is emptied, with any fate of either write; the answer counts both |
| `Store.ClearingMeans` | src/jobs/store.rs:280-300 | for every fate of the two writes: what has not ended stays on the list, and the archive is emptied unless that write fails or the first was not saved |
| `Store.JobStore.PruneArchive` | src/jobs/store.rs:302-318 | only the newest archived jobs stay, and the answer says how many went |
| `Recovery.RecoverJobs` | src/jobs/queue.rs:363-437 | the start-up loop, with any fate of each write, ends where judging the jobs oldest first one by one ends, and signals the ids to be queued again as far as the channel has room |
| `Recovery.RecoveryMeans` | src/jobs/queue.rs:363-437 | each listed job is decided on its own: untouched if it survives, is terminal or its write failed; otherwise interrupted work ends failed, pushes and duplicates end canceled |
| `Recovery.SurvivorsMean` | src/jobs/queue.rs:376-395 | what survives: queued jobs other than pushes without a key, and of each key that nothing interrupted holds exactly one queued job, none being older |
| `Seniority.SurvivesIff` | src/jobs/queue.rs:363-437 | in the list's own words: a queued job other than a push survives exactly if nothing interrupted holds its key and no queued job of the key is its senior, created earlier or at once and listed later |
| `Seniority.StartUpMeans` | src/jobs/queue.rs:363-437 | what start-up makes of every listed job, by its status, kind, key and seniority: running work ends failed, pushes and duplicates end canceled, all others stay |
| `Seniority.SignalsAreInOrder` | src/jobs/queue.rs:410-429 | the survivors are signalled oldest first, as far as the channel has room |
| `Recovery.RecoveryLeavesQuiet` | src/jobs/queue.rs:363-437 | with its writes working, no job is left running, no push is left queued, and no two queued jobs share a key |
| `Recovery.QuietIff` | src/jobs/queue.rs:363-437 | a list is quiet exactly if every job on it is terminal or survives |
| `Recovery.QuietIsStable` | src/jobs/queue.rs:363-437 | on a quiet list start-up changes nothing, whatever would become of its writes |
| `Recovery.RecoveryIsIdempotent` | src/jobs/queue.rs:363-437 | start-up twice is start-up once |
| `Recovery.SignalsAreSurvivors` | src/jobs/queue.rs:412-429 | the jobs signalled to the worker are exactly the survivors |
| `Recovery.OrderKeeps` | src/jobs/queue.rs:364-365 | the recovery order is by creation time and has exactly the listed jobs |
| `Startup.RecoveryRunIs` | src/jobs/queue.rs:363-437 | the machine's recovery steps, one job at a time and interruptible by a crash, add up to the whole of recovery |
| `Startup.StartupSettles` | src/jobs/queue.rs:363-437 | after a crash in any state, a start-up whose writes work ends with no task, nothing scheduled and a quiet list |
| `Ledger.EditKeepsList` | src/jobs/worker.rs:489-862 | every edit keeps distinct ids, attempt numbers that bound the starts, and distinct live keys of transfers |
| `Ledger.ClaimKeepsList` | src/jobs/worker.rs:489-505 | a saved claim spends the attempt of the claimed job: counted as a start, the list still bounds the starts |
| `Ledger.AddKeepsList` | src/jobs/store.rs:112-134 | adding a job under a fresh id keeps them, because a live job with the same key is returned instead |
| `Bounded.UpdateKeepsFiles` | src/jobs/store.rs:169-219 | an update keeps the list and the file well-formed whatever becomes of its write |
| `Bounded.LedgerStep` | src/jobs/worker.rs:142-379 | every step of the machine keeps the list and the file well-formed and the retry in hand on its listed attempt |
| `Bounded.StepCounts` | src/jobs/worker.rs:173-191 | the history counts a start exactly at a claim that adds a task |
| `Bounded.StartsAreBounded` | src/jobs/worker.rs:552-636 | over every run with any crashes, restarts and write failures, a transfer id is started at most once and any other id at most three times |
| `Bounded.TransferKeysStayDistinct` | src/jobs/queue.rs:291-345 | in every reachable state, in memory and on disk, no two live jobs share a key if one of them is a transfer |
| `Keys.RequeueKeepsKeysIff` | src/jobs/worker.rs:604-618 | an automatic retry of a listed job, which does not look at keys, keeps live keys distinct exactly if no live job has its key by then |
| `Keys.KeyStep` | src/jobs/worker.rs:604-618 | every other step keeps the live keys of all kinds distinct, on the list and in the file |
| `Keys.LiveKeysIff` | src/jobs/worker.rs:604-618 | over any run with any crashes, live keys of all kinds stay distinct exactly if no retry whose write lands finds its key live |
| `Incidents.RetryDuplicates` | src/jobs/worker.rs:604-618 | and it does go wrong, from an empty start without a crash or a failed write: a scrape fails, the same scrape is submitted, and the retry leaves two live jobs with one key |
| `Keys.ResubmittingFindsLive` | src/jobs/queue.rs:291-345 | after any run that leaves a submitted job live, submitting the same work again changes no file and returns a live job of that key, which is that very job for a transfer or while live keys are distinct |
| `Durable.DurableStep` | src/jobs/store.rs:351-373 | no step but a crash takes a live job off the list, whatever becomes of its writes, and after it every live job of the list is in the file as listed or as one update left it |
| `Durable.CrashKeeps` | src/jobs/store.rs:56-96 | a crash keeps every live job as well, as listed or as one update left it, unless a write in doubt had already ended it in the file |
| `Durable.LiveJobsAreOnDisk` | src/jobs/store.rs:351-373 | in every reachable state a crash would find each live job of the list in the file, as listed or as one update left it |
| `Crew.CrewStep` | src/jobs/worker.rs:142-379 | every step keeps the scheduler structure, the task list, the counters and the job in hand consistent |
| `Crew.WorkerInvariant` | src/jobs/worker.rs:142-379 | in every reachable state: distinct tasks, none scheduled and none queued on the list, counters equal to the counts of the tasks, no shared subscription, no bulk scrape beside a subscription job |
| `Crew.TasksKeepApart` | src/jobs/scheduler.rs:149-245 | in every reachable state, manual transfers apart, no two tasks have payloads with the same subscription, and none has one beside a scrape of all subscriptions |
| `Crew.StartRespectsLimits` | src/jobs/worker.rs:168-191 | at the moment of a start there was room for the kind within the limits it was selected under, no scrape of all subscriptions ran, and nobody worked for the job's subscription |
| `Crew.LimitStep` | src/jobs/worker.rs:168-191 | with fixed settings every step stays within the global and the class limits |
| `Crew.LimitsHoldThroughout` | src/jobs/worker.rs:168-191 | with fixed settings no reachable state has more tasks than allowed, in all or of any class |
| `Crew.KindsHoldThroughout` | src/jobs/worker.rs:168-191 | and so kind by kind: both kinds of transfer together, scrapes and pushes stay within their settings |
| `Crew.StartIsPersisted` | src/jobs/worker.rs:489-505 | a task is started only by a change of the listed job from queued to running that is on disk, at the priority it was scheduled with |
| `Crew.WakeUpMeans` | src/jobs/worker.rs:465-487 | a wake-up schedules the listed job as it is listed exactly if it is queued and has no due time or one that has come; otherwise it changes nothing |
| `Crew.ReconcileFindsAll` | src/jobs/worker.rs:444-463 | with the scheduler drained, reconciling schedules exactly the queued jobs with no due time or one that has come |
| `Crew.DroppedNewestFirst` | src/jobs/worker.rs:444-463 | reconciling wakes the jobs up newest first |
| `Crew.CrashReloads` | src/jobs/store.rs:56-96 | a crash reloads the job file, cut to capacity, starts recovery over, and forgets tasks, scheduler, counters and breakers |
| `Probe.ProbeStep` | src/jobs/worker.rs:172-188 | every step keeps each set probe with a running task of its class, unless it judges a job no longer listed |
| `Probe.JudgeKeepsProbeIff` | src/jobs/worker.rs:552-580 | applying reliability keeps the probes covered exactly if the job is still listed, or its class has no probe out, or another task of the class runs |
| `Probe.NoProbeLeaks` | src/jobs/worker.rs:172-188 | over every run that finds each job it judges, a set probe has a running task of its class |
| `Probe.ProbesLeakIff` | src/jobs/worker.rs:172-188 | over any run, every set probe is covered in every state exactly if no step judges an unlisted job whose class has a probe out and no other task |
| `Probe.ClearingWedges` | src/jobs/worker.rs:553-555 | the leak, step by step: clear finished jobs after the probe job ended and before its outcome is taken in |
| `Incidents.ProbeLeaks` | src/jobs/worker.rs:553-555 | and it is reached from an empty start without a crash or a failed write: three transfers fail, a minute later the probe runs, succeeds and is cleared before it is joined, and its class is wedged |
| `Probe.WedgedForGood` | src/jobs/worker.rs:552-580 | a class whose probe leaked never starts another job until the process restarts |
| `Timing.DueStep` | src/jobs/worker.rs:465-487 | every step keeps all scheduled or selected queued jobs due, as long as the clock does not go back |
| `Timing.RetryWaits` | src/jobs/worker.rs:595-618 | a saved retry is queued on the next attempt, at most the third, due 1 to 300 seconds from now, and scheduling it before that does nothing |
| `Retrying.FailureIsRetriedIff` | src/jobs/worker.rs:552-618 | a joined job that has failed is queued again, for the next attempt and due within five minutes, exactly if it is a scrape or a push, has failed for the first or second time, and its class may pass; whatever became of the write that keeps its class |
| `Retrying.SuccessIsCleared` | src/jobs/worker.rs:557-566 | a joined job that has succeeded is left with no error class and no due time |
| `Retrying.RetryComesBack` | src/jobs/worker.rs:444-487 | after any run from a saved retry, five minutes later, a job still queued on that attempt is scheduled by a wake-up, and by reconciling once nothing else is scheduled |
| `Timing.NothingRunsEarly` | src/jobs/worker.rs:444-487 | whatever a run starts was due when claimed: a retry never runs before its delay is over |
| `Loop.JobWorker.constructor` | src/jobs/worker.rs:142-149 | a new worker has no tasks, an empty scheduler, zero counters and closed breakers |
| `Loop.JobWorker.QueuePendingJob` | src/jobs/worker.rs:465-487 | schedules the listed job if it is queued and due, and leaves everything else to its timer |
| `Loop.JobWorker.ReconcileQueuedJobs` | src/jobs/worker.rs:444-463 | the loop over the dropped ids schedules them newest first |
| `Loop.JobWorker.SelectNext` | src/jobs/worker.rs:173-177 | one selection step of the machine |
| `Loop.JobWorker.ClaimJob` | src/jobs/worker.rs:178-191 | one claim step of the machine: started only if the claim was saved, otherwise the probe is released |
| `Loop.JobWorker.Dispatch` | src/jobs/worker.rs:172-288 | the whole dispatch loop, with any fate of each claim's write |
| `Loop.DispatchIsRun` | src/jobs/worker.rs:172-288 | the dispatch loop is a run of selection and claim steps, so every property of runs holds of it |
| `Loop.DispatchExhausts` | src/jobs/worker.rs:172-288 | when the dispatch loop ends, no group head in any queue may start |
| `Loop.JobWorker.HandleTaskResult` | src/jobs/worker.rs:507-550 | each outcome makes its own conditional edit and nothing else |
| `Loop.OutcomeIsRecorded` | src/jobs/worker.rs:507-550 | a saved error, panic or timeout ends the job if it is still running, failed and with its own class; a canceled or ended job and every other job stay as they were |
| `Loop.ReportIsRecorded` | src/jobs/worker.rs:760-862 | what each report of a body leaves on the list: progress and heartbeats only of a running job, results of a download and a missing subscription whatever the status, an end only of a running job |
| `Loop.JobWorker.ApplyReliability` | src/jobs/worker.rs:552-636 | judging, clearing or attaching the class, and the retry, in the order of the code with any fate of either write |
| `Loop.ConcludedIsRun` | src/jobs/worker.rs:552-636 | what reliability does is a run of at most three machine steps |
| `Loop.JobWorker.TakeIn` | src/jobs/worker.rs:347-352 | an outcome is taken in: counters and tasks first, then the result, then reliability |
| `Loop.TakenInIsRun` | src/jobs/worker.rs:347-352 | taking an outcome in is the machine's joining step and then reliability's steps |
| `Loop.JobWorker.DrainForShutdown` | src/jobs/worker.rs:382-427 | without interference: takes in outcomes while the grace period lasts, drops the other tasks, and marks what the list still shows running |
| `Loop.DrainIsRun` | src/jobs/worker.rs:382-427 | an undisturbed shutdown is a run of the machine that takes in, in order, every outcome that comes while there are tasks, gives up the others, marks, and stops |
| `Loop.DrainLeavesNothingRunning` | src/jobs/worker.rs:382-427 | without interference, a shutdown whose writes work leaves no task and no running job, and touches no job that was not running when the marks began |
| `Shutdown.ShutdownLeavesNothingRunning` | src/jobs/worker.rs:410-427 | with job bodies reporting and API calls coming at any moment between the listing and the marks, a shutdown whose marks are saved still ends with no running job |
| `Api.JobQueue.Submit` | src/jobs/queue.rs:291-360 | refused while shutting down; otherwise the new job, or the live one with the same key; a new job whose wake-up finds the worker gone is marked failed and refused |
| `Api.NewJobMeans` | src/jobs/queue.rs:291-345 | a new job is queued on its first attempt with what was asked for, keyed by its kind and payload |
| `Api.OfferedIsRun` | src/jobs/queue.rs:291-360 | a submission with its wake-up, sent or failed, is a run of the machine, so every property of runs holds of it |
| `Api.RefusedButListed` | src/jobs/queue.rs:345-350 | a refused new job, on a full list too, ends failed in the file if its mark is saved, and otherwise stays queued there for the next start-up |
| `Api.JobQueue.Cancel` | src/jobs/queue.rs:157-196 | accepted exactly if saved and the job is queued or a running scrape; the answer is the listed job, canceled |
| `Api.JobQueue.SetPriority` | src/jobs/queue.rs:242-263 | accepted exactly if saved, the job is queued and the wake-up goes out; the answer is the listed job with the new priority |
| `Api.PriorityTakesEffect` | src/jobs/queue.rs:242-263 | with its wake-up a due job is scheduled under the new priority |
| `Api.WakesUpOnce` | src/jobs/queue.rs:345-350 | the wake-up of a submission is sent or fails once, and no other submission's is touched |
| `Api.CallsAreSteps` | src/jobs/store.rs:221-300 | the calls that clean up are steps of the machine |
| `Api.JobQueue.Retry` | src/jobs/queue.rs:198-240 | resubmits a failed or canceled job as a new one, and refuses everything else without a change |
| `Events.EventIdIsInjective` | src/services/automation_events.rs:54-58 | jobs whose ids have no colon never share an event, and neither do two attempts of one job |
| `Events.RefusedIff` | src/models/automation_event.rs:64-84 | which status of a job an event refuses, for every status of the event, and that it touches no other event |
| `Events.ShownMeans` | src/services/automation_events.rs:41-88 | what a timeline that shows a job says: under the id of its attempt, the status of the same name, pending for queued |
| `Events.EventStep` | src/services/automation_events.rs:41-88 | after start-up, every step publishes a job that its event accepts exactly unless it saves an ending over that job unlooked after it ended; otherwise the event shows the job again, and a retry lands on a fresh event |
| `Events.TimelineFollowsIff` | src/services/automation_events.rs:12-39 | for each job, over any run between start-up and the next crash, its event refuses something exactly if an ending is saved over its end unlooked; if none is, the event shows the job, whatever happens to other jobs |
| `Events.LateEndings` | src/jobs/worker.rs:410-427 | such endings come from three places only: a scrape without its subscription, a mark at shutdown, and the mark of a submission whose wake-up failed |
| `Events.CancelThenMissing` | src/jobs/worker/metadata_scrape.rs:11-26 | it happens: a running scrape is canceled while its body is about to find its subscription missing |
| `Events.SuccessThenMark` | src/jobs/worker.rs:410-427 | it happens at shutdown: a body succeeds between the listing and the mark |
| `Events.CancelThenGone` | src/jobs/queue.rs:345-350 | it happens to a submission canceled before the failure of its wake-up is marked |
| `Refusals.MissingRefused` | src/jobs/worker/metadata_scrape.rs:11-26 | from an empty start without a crash or a failed write, the timeline refuses the ending of a canceled scrape |
| `Refusals.SuccessRefused` | src/jobs/worker.rs:410-427 | and, in such a run, the mark at shutdown of a job that has succeeded since the listing |
| `Refusals.GoneRefused` | src/jobs/queue.rs:345-350 | and the mark of a submission canceled before its wake-up failed |
| `Events.StartUpIsSilent` | src/app.rs:115-126 | nobody listens during start-up: a job whose event showed it is still shown exactly if it is over, survives, or could not be written |
| `Events.StartUpKeepsTimelineIff` | src/app.rs:115-126 | a start-up whose writes work leaves the timeline showing the list exactly if the reloaded list was quiet |
| `Season.ParseSeasonSpecList` | src/models/subscription.rs:606-647 | the loops over parts and separators compute the season list of any text |
| `Season.ParsedIsClean` | src/models/subscription.rs:606-647 | whatever the text, the parsed list is not empty, strictly ascending and within 1..99 |
| `Season.Subscription.NormalizeSeasonRange` | src/models/subscription.rs:494-511 | the three fields end as the normal form of what they were |
| `Season.CoversIsMembership` | src/models/subscription.rs:469-488 | covers_season holds exactly for the members of season_numbers, which are ascending and never empty |
| `Season.NormalizeListCovers` | src/models/subscription.rs:584-602 | a normalised list covers exactly the in-range members, or season 1 if there are none, and stays a list only if it has a gap |
| `Season.NormalFormIff` | src/models/subscription.rs:584-602 | two lists have the same normal form exactly if these cover the same seasons |
| `Season.NormalizingKeepsCoverageIff` | src/models/subscription.rs:490-511 | normalising a subscription keeps what it covers exactly if its list is in range, or its end fits, or its empty list hides only season 1 |
| `Season.NormalizingTwiceIff` | src/models/subscription.rs:494-511 | normalising is idempotent exactly except for a range that starts at or beyond 99 and ends later |
| `Season.SpecRoundTrip` | src/api/utils.rs:68-124 | for every request, parsing the printed season_spec gives the same response again, whatever else the second request holds |
| `SeasonSpec.ListRequested` | src/api/utils.rs:68-77 | a request without spec and with a list gets the list's members from 1 to 99, or season 1 if there are none |
| `SeasonSpec.BoundsRequested` | src/api/utils.rs:68-77 | a request with neither gets the seasons from its start, 1 unless given, to its end if later, both brought into 1 to 99 |
| `SeasonSpec.SpecIsAnswered` | src/api/utils.rs:68-84 | a request whose spec is any number of parts, each a number or a range in either order, with any of the signs and any of the commas, gets exactly the seasons of its parts, or season 1 if they mean none |
| `SeasonSpec.SpecMeans` | src/models/subscription.rs:606-660 | the parser reads such a text as exactly those seasons |
| `SeasonSpec.AnswerMeans` | src/api/utils.rs:68-124 | the other fields of the answer, said of the seasons it lists: first, last, the list if there is a gap, and whether there are several |
| `SeasonSpec.StoredCovers` | src/models/subscription.rs:469-488 | what a stored selection covers, in terms of its fields |
| `SeasonSpec.NormalizedCovers` | src/models/subscription.rs:490-511 | what a normalised selection covers, in terms of the fields it was made from |
| `Text.WhiteSpaceIs` | src/models/subscription.rs:606-660 | white space is Unicode's 25 characters |
| `Text.TrimMeans` | src/models/subscription.rs:606-660 | trimming takes the white space off both ends and nothing else |
| `Text.ParseI32Means` | src/models/subscription.rs:657-663 | a number is read from digits with at most one sign, if it fits into 32 bits |
| `Text.ValueMeans` | src/models/subscription.rs:657-663 | one more digit makes a number ten times as much and the digit |
| `Text.NoNumber` | src/models/subscription.rs:657-663 | anything else is no number |
| `Season.ResponseListsCoverage` | src/api/utils.rs:81-84 | the seasons a response lists are those its selection covers |
| `Paths.CanonicalIsStable` | src/services/backup.rs:866-894 | a safe path's canonical form is safe, is its own canonical form and names a file |
| `Paths.SafePathsStayInside` | src/services/backup.rs:866-894 | no safe path has an empty, dot or dot-dot component, a backslash, or a reserved place |
| `Paths.PlainPathsAreSafe` | src/services/backup.rs:866-894 | every path made of plain names is accepted as it is, unless it lies in backups/ or is the restart flag |
| `Paths.PathIsRead` | src/services/backup.rs:866-894 | how any path is read, part by part: refused for a leading slash or dot, a double dot or a backslash, or a reserved place, and otherwise its parts that are neither empty nor a dot |
| `Paths.PathLeadsTo` | src/services/backup.rs:652-678 | which paths name a file and which files a snapshot takes, by the parts of the path |
| `Backup.BuildArchive` | src/services/backup.rs:607-650 | the loop over the listing gives the snapshot, or refuses for an unsafe name, too many files or too many bytes |
| `Backup.ValidateArchive` | src/services/backup.rs:680-728 | accepts exactly the supported, intact, distinct, safe archives within the limits whose contents decode |
| `Backup.BackupService.RequestRestore` | src/services/backup.rs:463-516 | a confirmed valid request writes snapshot, restart flag and request in that order, with any fault at each |
| `Backup.BackupService.WriteAtomic` | src/utils/mod.rs:34-64 | one atomic write: refused whatever the plan says for a name the system does not take, for a directory in the file's place or a file in a directory's; it makes the directories above its file, and one that fails may leave some of them |
| `Backup.WriteMeans` | src/utils/mod.rs:34-64 | one write case by case: what is stored, which directories are made, what a refusal or a fault leaves, and when it counts as done |
| `Writing.WritableIff` | src/utils/mod.rs:34-64 | what can be written, said of the canonical paths alone |
| `Backup.BackupService.RestoreAll` | src/services/backup.rs:834-846 | writes file by file up to the first that is refused or goes wrong |
| `Backup.BackupService.RemoveUnlisted` | src/services/backup.rs:547-556 | the loop that removes what the snapshot does not list, comparing names as written |
| `Backup.BackupService.ApplyPendingRestore` | src/services/backup.rs:520-570 | one start-up, with any fault at any of its file operations |
| `Restore.RestoreFilesIs` | src/services/backup.rs:834-846 | restoring touches the archive's files only and, finished, has written them all |
| `Restore.OverlayForgets` | src/services/backup.rs:834-846 | the outcome of a full restore does not depend on what its files held before |
| `Restore.RequestIsHarmless` | src/services/backup.rs:463-516 | a request touches no data file whatever happens to it, and when it is on disk its snapshot of the data is there before it |
| `Restore.RestoreIsRestartable` | src/services/backup.rs:520-570 | for every sequence of start-ups with any faults: while the request stands, data differ from the original at most in the archive's files and a started request's snapshot is of the original; once it is gone, the data are the original with the whole archive over it |
| `Restore.AttemptProgress` | src/services/backup.rs:520-570 | every single start-up keeps that, and finishes only with the request gone |
| `Writing.FinishesIff` | src/services/backup.rs:834-846 | a list of files can be written one after the other, whatever goes right, exactly if the system takes every name, no target is a directory or lies under a file, and none lies under another; without faults it then is written, and otherwise stops with an error |
| `Undo.FailedRestoreIsUndoneIff` | src/services/backup.rs:545-559 | for a request that gets as far as writing: a finished rollback gives the original files back, for every history of interrupted start-ups and every point of failure, exactly if no rollback can finish or every archive entry is listed by its raw name, or its name leads to no original file, or it leads nowhere and its target is in the snapshot, has the same content, or cannot be reached by the writes |
| `Undo.UndoneAttempt` | src/services/backup.rs:545-559 | if every entry rolls back, a start-up that ends with a finished rollback leaves the original files, the request still standing, and its snapshot of the original |
| `Undo.StartShows` | src/services/backup.rs:545-559 | an entry that does not roll back is shown at the first start-up, by a failure of its own write, or of any write if the rollback deletes its file |
| `Undo.UnwritableIsUndone` | src/services/backup.rs:545-559 | an archive that cannot be written ends a start-up without other faults with a finished rollback exactly if a rollback can finish, and with the original files if every entry rolls back |
| `Undo.OwnArchivesRollBack` | src/services/backup.rs:607-650 | every entry of every archive the program writes, of whatever directory, meets that condition for every original directory |
| `Undo.SkippedFileIsLost` | src/services/backup.rs:652-678 | with an entry that names an original file which snapshots skip, some failed restore whose rollback can finish has changed the directory: the file is deleted |
| `Undo.DoubledSlashLosesFile` | src/services/backup.rs:547-556 | with an entry written with a doubled slash, some failed restore whose rollback can finish has deleted the original file |
| `Restore.SnapshotRoundTrip` | src/services/backup.rs:607-678 | a directory's own snapshot restored over anything gives back every visible file and leaves the others |
| `Restore.BackupAcceptedIff` | src/services/backup.rs:787-789 | a backup just made is accepted exactly if every visible file passes the content check |
| `Completion.CompletesIff` | src/services/backup.rs:520-570 | a request can complete over any start-ups at all exactly if a faultless start-up completes it, and exactly if it is valid, the directory can be backed up into an acceptable snapshot, and the archive can be written over it; otherwise it stays for good and no file but the archive's own ever changes, none at all if no start-up gets as far as writing |
| `Completion.FaultlessStart` | src/services/backup.rs:520-570 | a faultless start-up of such a request leaves neither request nor restart flag, the original files with the archive's over them, and the snapshot of the original |
| `Backup.SnapshotNameIff` | src/services/backup.rs:531-533 | the snapshot names accepted are those with the program's prefix and no slash of either kind behind it |
| `Completion.AcceptedButUnwritable` | src/services/backup.rs:680-728 | the check accepts a name with a NUL, and a file beside a file under it, though no directory can take either |

## Left out

- Titles, messages, error texts, notifications, metrics, logging, HTTP, authentication, settings storage and the network clients.
- Deriving an error class from texts: a failed job without a class gets an arbitrary one.
- The bodies of jobs: a body reports progress, completion or failure at arbitrary moments; what it does to the cloud drive is not modelled.
- Liveness of the runtime: nothing is said about when a timer fires, a signal arrives or a task ends, nor about the abort handles and the watchdog that lead to an outcome.
- A panic of the wrapper task around a job body, after which counters and tasks would differ.
- The branch of start-up recovery for a closed signal channel: the receiver is held by the worker about to be started.
- Maintenance mode and the backlog alert: the former only leaves selection steps out, the latter submits an ordinary push job.
- The rule that a manual transfer with saved files is not retried enters `Api.JobQueue.Retry` as a parameter.
- Corrupt or newer job files, schema migration and file permissions; a load is of a readable file.
- Aging and merging of time stamps in the event store, its cap by count (`src/store/automation_event.rs:354-357`), which may drop the event of a live job that the timeline of the model keeps, events dropped when the broadcast lags, and the extra stage events of a finished subscription transfer.
- Events.TimelineFollowsIff: starts from an event that shows its job, or a job not yet submitted, and ends at the next crash, after which a write in doubt may have changed a job unseen; the worker's steps between its spawn and the moment the timeline subscribes are unheard as well and not told apart. Every accepted event is taken to be saved and every published job to be heard: after a failed save (`src/store/automation_event.rs:276-288`), a lag of the broadcast or a restart of the projection loop, an event that missed its job's start stays pending, and refuses the job's success without any late ending.
- Loop.JobWorker.DrainForShutdown: no body reports between the listing and the marks; `Shutdown.ShutdownLeavesNothingRunning` and `Events.SuccessThenMark` speak of those that do.
- The default priority of each kind: the model's submissions come at any priority.
- Timing.NothingRunsEarly: assumes a clock that does not go back; the program reads the wall clock.
- Overflow of the 32-bit failure counter and of 64-bit times.
- Symbolic links, temporary files left by a crash, and file modes in the data directory; a write or a read they make fail is a fault of the plan, so what completes is said of directories the program may read and write.
- The instance lock: each start-up first writes its process id into `.lock` of the data directory (`src/instance_lock.rs:47-94`). The model's start-ups leave that file alone, so for this one file "as before" means up to the process id.
- File names that are not UTF-8, and file systems that fold case or normalise names.
- Archive contents as base64 with size and SHA-256: a file carries whether these agree.
- Retention, external copies and periodic verification of stored backups.
- Self-update, download monitoring, telegram menus and the front end.

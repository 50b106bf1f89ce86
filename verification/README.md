# Verified models of the RDK services

This project models the stateful parts of a set of device-management plugins and proves what they keep. Each program
is described twice where it changes state: as a value-level step system or function, about which the theorems are
proved, and as a class or method with the program's own assignments and loops, whose contract says that it moves by
exactly that step. The methods of `Manager`, `Packager` and `Interface` also require and keep the invariant of their
protocol, so the theorems hold of the objects. `dafny verify dfyconfig.toml` checks everything.

- **The maintenance cycle** (`TaskStatus`, `MaintenanceHistory`, `MaintenanceCycle`, `MaintenanceSafety`,
  `MaintenanceTheorems`, `MaintenanceRequests`, `MaintenanceJobs`, `MaintenanceTimer`, `MaintenanceWaits`,
  `MaintenanceJoin`, `MaintenanceFailures`, `MaintenanceManager`, `TaskLoop`). A worker thread runs RFC, SWUPDATE and LOGUPLOAD while IARM events, the timer signal, start and stop
  requests and bootup touch the same fields. Every
  section under `m_statusMutex`, every group of worker statements and every signal delivery is one atomic step; a join
  made while the mutex is held is two steps with the mutex held in between, the second one enabled only when the joined
  worker has returned. A proof-only history records broadcasts, thread starts and accepted events. Launch results,
  activation and connectivity answers and timer calls are inputs that may turn out either way at every step. The wait of
  the job loop ends only after a notification sent since it began, or by a spurious wake-up, which is a step of its
  own. Interleavings are arbitrary.
- **The packager** (`PackagerProtocol`, `PackagerSafety`, `PackagerProgress`, `PackagerImplementation`). Any number of
  callers of `Install`, `SynchronizeRepository`, `Register` and `Unregister` against one install thread.
- **The JSON-RPC client** (`JsonRpcPromises`, `JsonRpcInterface`). Concurrent `sendRequest` calls against incoming
  messages, with ids that may collide.
- **Start times** (`Calendar`, `StartTime`). The calendar and seconds since the Epoch follow section 4.16 of
  POSIX.1-2017 (Base Definitions).
- **Settings and modes** (`SettingsFile`, `Settings`, `MaintenanceMode`). The settings file, its two readers, and the
  maintenance mode and opt-out choice stored in it.
- **Helpers** (`PropertyFile`, `Base64`, `MoveFile`, `Blink`). Recursive property lookup; the streaming encoder against
  section 4 of RFC 4648; moving a file with short reads and writes; the LED blink scheduler.

## What the proofs found

- `TASK_SKIPPED` is bit 7, but the handler tests the mask 0x200. On every reachable status word the INCOMPLETE verdict
  is impossible, and the mask of bit 7 would give it exactly for an unsuccessful cycle with a skipped firmware update.
- The comments at the INPROGRESS events say that a flag becomes false on COMPLETE or ERROR. An ERROR event leaves the flag
  exactly as it was, so a later COMPLETE event for the same job still counts as its success. There is a run in which RFC
  reports an error and the cycle is judged COMPLETE, and one judged ERROR that the mask of bit 7 would judge INCOMPLETE.
- Only an IARM event draws a verdict. After a launch failure or timeout of the last job the status stays STARTED. A cycle
  that has lost its worker is ended by a stop, or by an event exactly when that event leaves every job complete.
- A start is accepted exactly when the status is not STARTED and a terminal status of this boot has been broadcast, but for
  the moment between the report of a missing network and the end of the worker that made it.
- Joins are made under a mutex that the joined worker may still need, and `notify_one` has no effect before the wait
  begins. Without spurious wake-ups a pending join can return exactly unless its worker needs that mutex, or waits for a
  notification sent too early that no alarm can replace. A start is stuck exactly with a worker that has still to
  announce STARTED; a stop or a verdict exactly with one that is about to report a missing network or waits in vain.
  Runs reach each kind: two quick starts, `stopMaintenance` on an offline device, and a stop or the last event of a
  cycle arriving while the worker is still inside `system()`.
- `Run()` of the packager before `Block()` of its thread is lost, and from then on no job is accepted or finished;
  a job in progress can be finished exactly when this has not happened. A job is accepted into this state exactly when
  the thread is between its last job and `Block()`.
- An observer that registers after an installation was accepted and before its first report is told a state that is
  never published. In every other case it receives a suffix of the published history with at most its head doubled.
- `MoveFile` takes a failed read for the end of the file: it then returns true, removes the source and leaves a
  truncated copy. It also returns true when the source cannot be removed. True means moved exactly if the source can be
  removed and no read returns nothing before the end.
- `setMaintenanceMode` answers false for an invalid opt-out choice although the mode has changed, and true when the mode
  has not changed because its event could not be sent. The answer tells whether a new mode took effect exactly when the
  opt-out choice is valid just in case the mode is allowed to change.
- The local-time and the UTC path of `CalculateStartTime` agree at offset zero except for a midnight slot in the last
  nine seconds of a day, which the UTC path does not put off.
- `readPropertyFromFile` takes the whole line as the value exactly when a matching line holds no `=`, and never ends
  exactly when the references it follows come back to one of them.

## Model

| member | source | states |
|---|---|---|
| `TaskStatus.MasksMeanAllTasks` | MaintenanceManager/MaintenanceManager.h:128-129 | the two masks hold exactly when every one of the three jobs is complete, and complete and successful |
| `TaskStatus.RecordSuccess` | MaintenanceManager/MaintenanceManager.cpp:1671-1672 | setting both bits of a job keeps the word well formed and changes no other job's bits |
| `TaskStatus.RecordComplete` | MaintenanceManager/MaintenanceManager.cpp:538-544 | setting a COMPLETE bit alone keeps the word well formed and makes nothing successful |
| `TaskStatus.RecordOther` | MaintenanceManager/MaintenanceManager.cpp:1706-1714 | the reboot and skipped bits touch no job's bits |
| `TaskStatus.VerdictIsNeverIncomplete` | MaintenanceManager/MaintenanceManager.cpp:1792-1821 | on a well-formed word the verdict is COMPLETE iff all succeeded, ERROR iff all completed and some did not succeed, never INCOMPLETE |
| `TaskStatus.IntendedMaskWouldReportIncomplete` | MaintenanceManager/MaintenanceManager.h:130-156 | the mask of bit 7 would change the verdict exactly for completed, unsuccessful words with the skipped bit, from ERROR to INCOMPLETE |
| `MaintenanceFailures.SkippedCycleIsReachable` | MaintenanceManager/MaintenanceManager.cpp:1713-1720 | every initial state has a run whose verdict is ERROR and would be INCOMPLETE with the mask of bit 7 |
| `MaintenanceHistory.ProvenMeansEvidence` | MaintenanceManager/MaintenanceManager.cpp:1661-1703 | in a good history a job counts as proven iff, since the last reset of the status word, a COMPLETE event of its own was accepted with its flag true, or, for firmware, the worker skipped it for an activation reason |
| `MaintenanceHistory.DigestMeansBroadcasts` | MaintenanceManager/MaintenanceManager.cpp:2890-2902 | the digest of a history gives its last broadcast status and whether a terminal one was broadcast |
| `MaintenanceHistory.EntryAt` | MaintenanceManager/MaintenanceManager.cpp:2890-2902 | each entry of a good history obeys the rule for what came before it |
| `MaintenanceHistory.IncompleteIsNeverBroadcast` | MaintenanceManager/MaintenanceManager.cpp:1811-1815 | no good history ends in an INCOMPLETE broadcast |
| `MaintenanceSafety.InitInv` | MaintenanceManager/MaintenanceManager.cpp:1555-1589 | the state the constructor leaves satisfies the invariant of the cycle |
| `MaintenanceSafety.AtMostOneLive` | MaintenanceManager/MaintenanceManager.cpp:2641-2652 | the thread part of the invariant allows one live worker at most, and none once a join can return |
| `MaintenanceSafety.BootResetKeeps` | MaintenanceManager/MaintenanceManager.cpp:1555-1589 | bootup's reset keeps the invariant |
| `MaintenanceSafety.BootSpawnKeeps` | MaintenanceManager/MaintenanceManager.cpp:1597-1612 | bootup's thread start, or its failure, keeps the invariant |
| `MaintenanceSafety.ProbeKeeps` | MaintenanceManager/MaintenanceManager.cpp:389-446 | the activation, network and WhoAmI checks keep the invariant, whatever they answer |
| `MaintenanceSafety.AnnounceKeeps` | MaintenanceManager/MaintenanceManager.cpp:376-381 | the worker's three broadcasts keep the invariant, its history rules included |
| `MaintenanceSafety.PlanKeeps` | MaintenanceManager/MaintenanceManager.cpp:484-498 | choosing the job list, with or without firmware, keeps the invariant |
| `MaintenanceSafety.LoopKeeps` | MaintenanceManager/MaintenanceManager.cpp:500-572 | every statement group of the job loop keeps the invariant, retries and launch failures included |
| `MaintenanceSafety.ReturnKeeps` | MaintenanceManager/MaintenanceManager.cpp:573-585 | both exits of the worker keep the invariant |
| `MaintenanceSafety.EventKeeps` | MaintenanceManager/MaintenanceManager.cpp:1629-1821 | an IARM event up to its join keeps the invariant |
| `MaintenanceSafety.TerminalKeeps` | MaintenanceManager/MaintenanceManager.cpp:1824-1834 | the terminal broadcast after a join, by the handler or by stop, keeps the invariant |
| `MaintenanceSafety.StartKeeps` | MaintenanceManager/MaintenanceManager.cpp:2616-2637 | a start request up to its join keeps the invariant |
| `MaintenanceSafety.StartJoinedKeeps` | MaintenanceManager/MaintenanceManager.cpp:2641-2666 | its second half keeps the invariant whether or not the thread can be created |
| `MaintenanceSafety.StopKeeps` | MaintenanceManager/MaintenanceManager.cpp:2702-2754 | a stop request up to its join keeps the invariant |
| `MaintenanceSafety.AlarmStory` | MaintenanceManager/MaintenanceManager.cpp:868-895 | a timeout keeps the history part of the invariant: it completes a job without success |
| `MaintenanceSafety.WorkerKeeps` | MaintenanceManager/MaintenanceManager.cpp:357-586 | every step of the worker keeps the invariant |
| `MaintenanceSafety.StepKeeps` | MaintenanceManager/MaintenanceManager.cpp:357-2773 | every enabled step of every agent keeps the invariant |
| `MaintenanceTheorems.RunKeeps` | MaintenanceManager/MaintenanceManager.cpp:357-2773 | every state of every run satisfies the invariant |
| `MaintenanceTheorems.StartedAndTerminalAlternate` | MaintenanceManager/MaintenanceManager.cpp:370-470 | in every interleaving IDLE comes first and STARTED and terminal broadcasts strictly alternate; only an ERROR of the worker or of bootup straight after IDLE comes without STARTED |
| `MaintenanceTheorems.NoWorkerOutlivesItsCycle` | MaintenanceManager/MaintenanceManager.cpp:1824-1834 | one worker at most is ever alive, threads start only when none is, and none is when the handler or stop broadcasts its terminal status |
| `MaintenanceTheorems.CompleteRestsOnEvidence` | MaintenanceManager/MaintenanceManager.cpp:1792-1834 | COMPLETE is broadcast, and the completion time rewritten, only if since the last reset every job had a COMPLETE event accepted with its flag true or, for firmware, was skipped on an activation answer that calls for it, without WhoAmI and with suppression |
| `MaintenanceTheorems.AcceptedOnlyInFlight` | MaintenanceManager/MaintenanceManager.cpp:1661-1703 | no COMPLETE event is acted upon while its flag is false |
| `MaintenanceTheorems.SolicitedOnlyAfterBootCycle` | MaintenanceManager/MaintenanceManager.cpp:2618-2652 | a solicited cycle exists only after the boot cycle has reported a terminal status |
| `MaintenanceTheorems.StatusWordStaysWellFormed` | MaintenanceManager/MaintenanceManager.h:149-161 | in every reachable state success implies completion and only bits 0 to 7 are used, so the handler never joins for, or holds, INCOMPLETE |
| `MaintenanceTheorems.ReportedStatusWasBroadcast` | MaintenanceManager/MaintenanceManager.cpp:2890-2902 | the stored status is always the one broadcast last |
| `MaintenanceRequests.StepKeepsEnd` | MaintenanceManager/MaintenanceManager.cpp:459-463 | every step of every agent keeps: the boot cycle is marked as ended iff a terminal status was broadcast, but for the worker that has just reported a missing network |
| `MaintenanceRequests.StartIsAcceptedIff` | MaintenanceManager/MaintenanceManager.cpp:2616-2671 | in every run a start is accepted iff the status is not STARTED and a terminal status of this boot has been broadcast, except between the report of a missing network and the end of its worker; a refused one changes nothing |
| `MaintenanceRequests.AfterEachCycleAStartIsAccepted` | MaintenanceManager/MaintenanceManager.cpp:1826-1834 | in every run, once a terminal status stands and no worker lives, a start is accepted and its join can return |
| `MaintenanceRequests.BootForgetsTheCycle` | MaintenanceManager/MaintenanceManager.cpp:1555-1589 | bootup begins with no job complete or successful, no stop under way, no flag raised, and refuses a start |
| `MaintenanceRequests.StartForgetsTheCycle` | MaintenanceManager/MaintenanceManager.cpp:2625-2637 | after an accepted start no job is complete or successful and no verdict is due; a late stop and the critical flag are taken back, a reboot is announced, task flags stay |
| `MaintenanceRequests.FailedStartKeepsTheCriticalFlag` | MaintenanceManager/MaintenanceManager.cpp:2634-2663 | however long the start waits for its join, and whatever happens meanwhile: if its thread cannot be created the critical flag is again what it was before the request, otherwise it is false |
| `MaintenanceRequests.StopTakesTheFirst` | MaintenanceManager/MaintenanceManager.cpp:2702-2754 | a stop is accepted iff the status is STARTED; it takes away the flag of RFC, else of SWUPDATE, else of LOGUPLOAD, the first that is true, iff that job could be killed, and no other |
| `MaintenanceRequests.TimeoutCompletesIff` | MaintenanceManager/MaintenanceManager.cpp:868-895 | a timeout is acted upon iff the flag of the current job is true; the job is then complete, not more successful, its flag false and the worker notified, and no other job changes |
| `MaintenanceRequests.EventRaisesFlagsIff` | MaintenanceManager/MaintenanceManager.cpp:1706-1712 | the reboot bit and flag, and the critical flag, are raised by exactly one event each, heard iff the status is STARTED and no stop is under way, and lowered by none |
| `MaintenanceRequests.VerdictIsBroadcast` | MaintenanceManager/MaintenanceManager.cpp:1792-1834 | in every run, however long the handler waits for its join, what it broadcasts is COMPLETE iff every job had succeeded when the verdict was drawn, and otherwise ERROR |
| `MaintenanceRequests.VerdictRecordsTheTimeIff` | MaintenanceManager/MaintenanceManager.cpp:1792-1810 | an event that is heard records the completion time iff its verdict is COMPLETE |
| `MaintenanceRequests.EventNotifiesIff` | MaintenanceManager/MaintenanceManager.cpp:1661-1762 | an event notifies the worker iff it is heard and either a success or error event of a job whose flag is true, or an aborted firmware download |
| `MaintenanceJobs.StepKeepsJobs` | MaintenanceManager/MaintenanceManager.cpp:484-572 | every step of every agent keeps: the job list of the worker is that of its cycle, its place is within it, the current job is the one it works on, and it launches only with a timer started |
| `MaintenanceJobs.SkippedMeans` | MaintenanceManager/MaintenanceManager.cpp:484-492 | the fold over the history says iff the firmware was skipped since a worker was last started |
| `MaintenanceJobs.JobsOfTheCycle` | MaintenanceManager/MaintenanceManager.cpp:489-501 | in every run the worker in its loop has exactly RFC, SWUPDATE, LOGUPLOAD to do, in this order, without SWUPDATE iff it was skipped in this cycle; it leaves the loop without a stop only at the end of the list |
| `MaintenanceJobs.WhatIsLaunched` | MaintenanceManager/MaintenanceManager.cpp:504-519 | in every run a job is launched as the current one, with its flag true and a timer created; SWUPDATE is never launched in a cycle in which it was skipped |
| `MaintenanceJobs.LoopEndsIff` | MaintenanceManager/MaintenanceManager.cpp:501-501 | the loop ends iff every job has had its turn or a stop is under way |
| `MaintenanceJobs.FailedLaunchIsRetriedIff` | MaintenanceManager/MaintenanceManager.cpp:523-554 | in every run a failed launch is tried again iff a retry is left and the timer was started; otherwise the job is complete and the next is due with all its retries; only its own flag becomes false |
| `MaintenanceJobs.ReturnForgetsTheStopIff` | MaintenanceManager/MaintenanceManager.cpp:573-585 | a worker that returns leaves the abort flag set iff it was set and the worker leaves by the no-network exit |
| `MaintenanceJobs.TimeoutEndsTheWait` | MaintenanceManager/MaintenanceManager.cpp:884-890 | in every run a timeout while the worker waits completes the job it waits for and ends the wait iff the flag of that job is true |
| `MaintenanceJobs.AStopEndsTheLaunches` | MaintenanceManager/MaintenanceManager.cpp:501-519 | in every execution from an accepted stop on, the worker launches at most one job more, and none unless it was at the launch already |
| `MaintenanceJobs.ChecksLeadTo` | MaintenanceManager/MaintenanceManager.cpp:393-446 | where the checks lead: to the wait for a context iff the boot cycle of an unknown, not activated device; to the no-network exit iff there is no network or no reason to look, and in such a boot cycle only on an activated device |
| `MaintenanceJobs.OfflineCycleLaunchesNothing` | MaintenanceManager/MaintenanceManager.cpp:430-466 | in every execution, a cycle whose checks find no network launches no job, and its status is ERROR when its worker returns |
| `MaintenanceJobs.OnlyAContextEndsTheWait` | MaintenanceManager/MaintenanceManager.cpp:419-424 | the wait for a device context is ended by exactly the arrival of a context that could be set |
| `MaintenanceTheorems.CompleteAfterErrorIsAccepted` | MaintenanceManager/MaintenanceManager.cpp:1721-1734 | after an ERROR event that ends no cycle, a COMPLETE event of the same job is accepted as its success |
| `MaintenanceTheorems.ErrorLeavesTheFlagIff` | MaintenanceManager/MaintenanceManager.cpp:1721-1762 | after an ERROR event the flag is true iff it was true before |
| `MaintenanceFailures.ErrorThenCompleteIsReachable` | MaintenanceManager/MaintenanceManager.cpp:1721-1734 | every initial state has a run in which RFC reports an error and the verdict is COMPLETE |
| `MaintenanceTheorems.OnlyAnEventOrStopEndsTheCycle` | MaintenanceManager/MaintenanceManager.cpp:523-585 | once the worker has returned, no execution without an event or a stop leaves STARTED |
| `MaintenanceWaits.EventEndsOrphanIff` | MaintenanceManager/MaintenanceManager.cpp:1789-1839 | an event ends such a cycle, with a terminal status, iff it leaves every job complete; any other event leaves it as it is |
| `MaintenanceWaits.StopEndsOrphan` | MaintenanceManager/MaintenanceManager.cpp:2703-2765 | a stop ends it with ERROR |
| `MaintenanceWaits.StepKeepsWaits` | MaintenanceManager/MaintenanceManager.cpp:2706-2707 | every step keeps: the abort flag is set only under a pending stop or after one whose worker took no note of it, and only a worker that waits for a device context listens for it |
| `MaintenanceFailures.OrphanedIsReachable` | MaintenanceManager/MaintenanceManager.cpp:510-585 | every initial state has a run to such a cycle: a worker that can start no timer gives every job up and returns |
| `MaintenanceTimer.StepKeepsTimer` | MaintenanceManager/MaintenanceManager.cpp:500-584 | if disarming succeeds, every step of every agent keeps: an armed timer belongs to a live worker that will disarm it |
| `MaintenanceTimer.NoTimerOutlivesItsCycle` | MaintenanceManager/MaintenanceManager.cpp:545-584 | in every interleaving in which disarming succeeds, no timer is armed without a worker, nor when the handler or stop broadcasts the end of the cycle |
| `MaintenanceJoin.DoomedForever` | MaintenanceManager/MaintenanceManager.cpp:2616-2645 | a join pending on a worker that needs the mutex never returns: mutex and status stay as they are in every execution |
| `MaintenanceJoin.InVainForever` | MaintenanceManager/MaintenanceManager.cpp:559-559 | without spurious wake-ups, a join on a worker that waits in vain never returns: mutex and status stay as they are in every execution |
| `MaintenanceJoin.JoinCanReturnIff` | MaintenanceManager/MaintenanceManager.cpp:2754-2759 | without spurious wake-ups, a pending join can return by steps of anyone iff its worker neither needs the mutex nor waits unnotified with no alarm that would be accepted |
| `MaintenanceJoin.WorkerGetsOut` | MaintenanceManager/MaintenanceManager.cpp:484-586 | a worker past its announcements, and notified if it waits, can reach its return by its own steps, by a lexicographic measure over its jobs and retries |
| `MaintenanceJoin.WhomAJoinIsStuckWith` | MaintenanceManager/MaintenanceManager.cpp:1824-1828 | a pending start is stuck iff the worker is before its STARTED broadcast, a pending stop or verdict iff it is about to report that there is no network or waits in vain |
| `MaintenanceFailures.SecondStartIsDoomed` | MaintenanceManager/MaintenanceManager.cpp:2616-2652 | a second start before the new worker has announced itself deadlocks |
| `MaintenanceFailures.DeadlockIsReachable` | MaintenanceManager/MaintenanceManager.cpp:1604-1612 | every initial state has a run to such a deadlock |
| `MaintenanceFailures.OfflineStopIsDoomed` | MaintenanceManager/MaintenanceManager.cpp:2702-2759 | without WhoAmI support every initial state has a run in which a stop during the boot cycle of an offline device deadlocks |
| `MaintenanceFailures.LostVerdictIsReachable` | MaintenanceManager/MaintenanceManager.cpp:1673-1827 | every initial state has a run in which all events come while the worker is inside system(), and the COMPLETE verdict is never broadcast |
| `MaintenanceFailures.LostStopIsReachable` | MaintenanceManager/MaintenanceManager.cpp:2754-2759 | every initial state has a run in which a stop comes while the worker is inside system() and never returns |
| `MaintenanceManager.Manager.constructor` | MaintenanceManager/MaintenanceManager.cpp:344-346 | a new object is an initial state and satisfies the invariant |
| `MaintenanceManager.Manager.SpawnWorker` | MaintenanceManager/MaintenanceManager.cpp:2652-2652 | a new worker gets a fresh id; overwriting a joinable handle would be recorded as termination of the process |
| `MaintenanceManager.Manager.TaskStartTimer` | MaintenanceManager/MaintenanceManager.cpp:732-796 | the timer is created if need be and armed; the answer is true iff both succeeded, and the timer is armed then |
| `MaintenanceManager.Manager.OnBootupReset` | MaintenanceManager/MaintenanceManager.cpp:1555-1589 | the object moves by the reset step of bootup; the invariant is kept |
| `MaintenanceManager.Manager.OnBootupIdle` | MaintenanceManager/MaintenanceManager.cpp:1591-1594 | the IDLE broadcast; the invariant is kept |
| `MaintenanceManager.Manager.OnBootupSpawn` | MaintenanceManager/MaintenanceManager.cpp:1597-1604 | the first worker is started, or the failure branch entered; the invariant is kept |
| `MaintenanceManager.Manager.OnBootupFail` | MaintenanceManager/MaintenanceManager.cpp:1604-1612 | the boot cycle ends and ERROR is broadcast; the invariant is kept |
| `MaintenanceManager.Manager.WorkerEnter` | MaintenanceManager/MaintenanceManager.cpp:359-374 | whether STARTED is delayed; the invariant is kept |
| `MaintenanceManager.Manager.WorkerAnnounce` | MaintenanceManager/MaintenanceManager.cpp:376-472 | the early STARTED, the late STARTED and the no-network ERROR; the invariant is kept |
| `MaintenanceManager.Manager.Checks` | MaintenanceManager/MaintenanceManager.cpp:389-446 | the nested checks as written equal the closed form of the step |
| `MaintenanceManager.Manager.WorkerProbe` | MaintenanceManager/MaintenanceManager.cpp:389-446 | the nested checks, taken together, lead where the step says; the invariant is kept |
| `MaintenanceManager.Manager.WorkerAwaitContext` | MaintenanceManager/MaintenanceManager.cpp:421-424 | the wait ends only after the flag was cleared; the invariant is kept |
| `MaintenanceManager.Manager.WorkerPlan` | MaintenanceManager/MaintenanceManager.cpp:484-498 | the job list, and the firmware bits when it is skipped; the invariant is kept |
| `MaintenanceManager.Manager.WorkerTest` | MaintenanceManager/MaintenanceManager.cpp:501-501 | the loop test, abort flag included; the invariant is kept |
| `MaintenanceManager.Manager.Attempt` | MaintenanceManager/MaintenanceManager.cpp:503-515 | the timer is started on a first attempt only, and its failure leads to the failure branch |
| `MaintenanceManager.Manager.WorkerBody` | MaintenanceManager/MaintenanceManager.cpp:503-515 | the start of an attempt, stored as the locals of this worker; the invariant is kept |
| `MaintenanceManager.Manager.WorkerLaunch` | MaintenanceManager/MaintenanceManager.cpp:515-519 | the flag is set before the launch; the invariant is kept |
| `MaintenanceManager.Manager.AfterLaunch` | MaintenanceManager/MaintenanceManager.cpp:519-559 | the launch result decides between the failure branch and a wait that no earlier notification ends |
| `MaintenanceManager.Manager.WorkerLaunched` | MaintenanceManager/MaintenanceManager.cpp:519-523 | the launch result decides between waiting and the failure branch; the invariant is kept |
| `MaintenanceManager.Manager.FailLaunch` | MaintenanceManager/MaintenanceManager.cpp:523-554 | the retry branch and the give-up branch |
| `MaintenanceManager.Manager.WorkerLaunchFailure` | MaintenanceManager/MaintenanceManager.cpp:523-554 | a failed launch, stored as the locals of this worker; the invariant is kept |
| `MaintenanceManager.Manager.WorkerWake` | MaintenanceManager/MaintenanceManager.cpp:559-571 | after a notification the timer is stopped and the next job is due; the invariant is kept |
| `MaintenanceManager.Manager.WorkerReturns` | MaintenanceManager/MaintenanceManager.cpp:459-586 | the no-network exit and the end of the loop with its abort branch; the invariant is kept |
| `MaintenanceManager.Manager.ApplyModuleEvent` | MaintenanceManager/MaintenanceManager.cpp:1661-1780 | the switch over module events |
| `MaintenanceManager.Manager.IarmEvent` | MaintenanceManager/MaintenanceManager.cpp:1629-1824 | an event is ignored after an abort or outside a cycle; otherwise it is applied and a verdict drawn when all jobs are complete; the invariant is kept |
| `MaintenanceManager.Manager.IarmEventJoined` | MaintenanceManager/MaintenanceManager.cpp:1824-1846 | the end of the handler after its join; the invariant is kept |
| `MaintenanceManager.Manager.FindInFlight` | MaintenanceManager/MaintenanceManager.cpp:2727-2745 | the loop over the three names ends at the first flag that is true: it finds a job in flight with no earlier one in flight, and none iff no flag is true |
| `MaintenanceManager.Manager.StartMaintenance` | MaintenanceManager/MaintenanceManager.cpp:2616-2641 | a start is refused during a cycle and before the boot cycle has ended; the invariant is kept |
| `MaintenanceManager.Manager.StartMaintenanceJoined` | MaintenanceManager/MaintenanceManager.cpp:2641-2670 | the new worker, or the rollback of the critical flag, and the answer; the invariant is kept |
| `MaintenanceManager.Manager.StopMaintenance` | MaintenanceManager/MaintenanceManager.cpp:2692-2755 | the first job in flight is killed, the timer stopped and the abort flag set; the answer says whether a cycle was running; the invariant is kept |
| `MaintenanceManager.Manager.StopMaintenanceJoined` | MaintenanceManager/MaintenanceManager.cpp:2755-2773 | the end of stop after its join; the invariant is kept |
| `MaintenanceManager.Manager.TimerHandler` | MaintenanceManager/MaintenanceManager.cpp:868-895 | only a job in flight is set to complete by its timeout; the invariant is kept |
| `MaintenanceManager.Manager.OnDeviceContext` | MaintenanceManager/MaintenanceManager.cpp:1032-1064 | the waiting flag is cleared only for a listener of the boot cycle whose context could be set; the invariant is kept |
| `TaskLoop.Worker.RunTasks` | MaintenanceManager/MaintenanceManager.cpp:500-586 | under any interference, and if every wait ends, the loop ends; it is aborted iff a stop request came, and starts no timer and launches nothing after one; its calls are exactly those of attempts in list order, each with one timer start, at most one launch more than retries, none after a success, and a wait iff it succeeded; a run without a stop leaves every job launched with status 0, or complete after all its retries or without a timer; no timer stays armed if disarming succeeds |
| `TaskLoop.OneTimerPerTask` | MaintenanceManager/MaintenanceManager.cpp:508-535 | over such a run the timer is started exactly once for each attempted job, and no job is launched more than twice |
| `TaskLoop.Worker.StartTimer` | MaintenanceManager/MaintenanceManager.cpp:764-796 | one timer start is recorded with its outcome, and failure arms nothing |
| `TaskLoop.Worker.StopTimer` | MaintenanceManager/MaintenanceManager.cpp:805-828 | afterwards the timer is armed only if it was and disarming failed |
| `TaskLoop.Worker.Launch` | MaintenanceManager/MaintenanceManager.cpp:517-523 | one launch, with the flag of the job set, extends the attempt by its result: a zero status ends it, another leaves it pending with one failure more |
| `TaskLoop.Worker.Try` | MaintenanceManager/MaintenanceManager.cpp:510-520 | a timer is started before the first launch of an attempt only; without one nothing is launched, and a job is exhausted when no retry is left |
| `TaskLoop.Worker.Close` | MaintenanceManager/MaintenanceManager.cpp:545-571 | an attempt is closed only when it launched its job or the job is complete |
| `TaskLoop.Worker.SetComplete` | MaintenanceManager/MaintenanceManager.cpp:538-544 | giving a job up sets its COMPLETE bit and changes nothing else of the word |
| `PackagerSafety.StepKeeps` | Packager/PackagerImplementation.cpp:129-478 | every step of every agent keeps the invariant, and every assertion of the code holds when it is reached |
| `PackagerSafety.RunKeeps` | Packager/PackagerImplementation.cpp:129-478 | every state of every run satisfies the invariant |
| `PackagerSafety.AssertionsNeverFail` | Packager/PackagerImplementation.cpp:129-461 | in every run: Install and Package are set together where the code asserts or dereferences them, an iteration always has a job, FORCED mode implies syncing |
| `PackagerSafety.OpkgIsNeverTornDownUnderAJob` | Packager/PackagerImplementation.cpp:163-195 | while the worker is inside opkg it is initialised and nobody initialises or frees it; over the whole run the two alternate |
| `PackagerSafety.JobsAreConserved` | Packager/PackagerImplementation.cpp:163-195 | accepted jobs minus finished jobs is 1 while a job is in progress and 0 otherwise |
| `PackagerSafety.ChangesArePublished` | Packager/PackagerImplementation.cpp:245-283 | a state or an error that is set and announced is one report more, with the other part as it was, in the history and for every observer |
| `PackagerSafety.ReferencesEqualMultiplicity` | Packager/PackagerImplementation.cpp:129-151 | the references held on an observer equal its multiplicity in the list |
| `PackagerSafety.UnregisterTakesTheFirst` | Packager/PackagerImplementation.cpp:142-151 | unregistering gives back one reference and takes out the first listing of the observer; all other listings keep their order and what they have received |
| `PackagerSafety.ObserversReceiveASuffix` | Packager/PackagerImplementation.cpp:409-417 | what a registration has received is a suffix of the published history with at most its head doubled, or the report about to be published, iff it did not fall before the first report of an installation |
| `PackagerSafety.UntoldOnlyBeforeTheFirstReport` | Packager/PackagerImplementation.cpp:129-140 | the exceptional greeting is given exactly while an installation has nothing set |
| `PackagerSafety.UntoldIsReachable` | Packager/PackagerImplementation.cpp:129-140 | every initial state has a run in which an observer is told what is never published |
| `PackagerSafety.LostForever` | Packager/PackagerImplementation.h:271-294 | a job accepted while the thread is about to block is never started, and no job is accepted or finished after it |
| `PackagerSafety.AcceptedJobIsLostIff` | Packager/PackagerImplementation.cpp:186-186 | a job is lost by being accepted iff the thread is about to block at that moment |
| `PackagerSafety.LostIsReachable` | Packager/PackagerImplementation.h:271-294 | every initial state has a run that loses a job |
| `PackagerSafety.JobCanFinishIffNotLost` | Packager/PackagerImplementation.h:271-294 | a job in progress can be finished by the worker's own steps iff it is not lost |
| `PackagerSafety.PackageIsTheOneAskedFor` | Packager/PackagerImplementation.cpp:158-201 | in every run the package in progress is that of the last accepted installation, and nothing was accepted since |
| `PackagerSafety.ListsAreUpdatedIff` | Packager/PackagerImplementation.cpp:448-462 | in every run a package is installed without an update of the lists in its iteration iff the last look found local lists to use; a synchronisation always updates |
| `PackagerProgress.ProgressIsOrderly` | Packager/PackagerImplementation.cpp:252-290 | for every sequence of callbacks each DOWNLOADED stands between DOWNLOADING and INSTALLING, DOWNLOADING is never followed by INSTALLING, the last published state is the stored one, and 100 percent ends in INSTALLED |
| `PackagerProgress.LastCallbackPublishes` | Packager/PackagerImplementation.cpp:252-290 | for every sequence of callbacks the last, below 100 percent, stores DOWNLOADING or INSTALLING after its kind and otherwise leaves the state; it publishes nothing iff the state already was that one, DOWNLOADED and INSTALLING iff an install callback finds DOWNLOADING, and else just its state; at 100 percent INSTALLED follows |
| `PackagerProgress.AnnouncePublishes` | Packager/PackagerImplementation.cpp:409-417 | setting and announcing states publishes exactly those reports, in order |
| `PackagerProgress.AnnounceIsExecution` | Packager/PackagerImplementation.cpp:252-282 | announcing states is an execution of enabled protocol steps, two for each, and keeps the invariant |
| `PackagerImplementation.Packager.constructor` | Packager/PackagerImplementation.h:246-260 | a new object is an initial state and satisfies the invariant |
| `PackagerImplementation.Packager.Register` | Packager/PackagerImplementation.cpp:129-140 | the observer is referenced, listed, and told of an installation in progress; the invariant is kept |
| `PackagerImplementation.Packager.Find` | Packager/PackagerImplementation.cpp:146-147 | the search returns the first listing of the observer |
| `PackagerImplementation.Packager.Unregister` | Packager/PackagerImplementation.cpp:142-151 | the search finds the first listing; it and one reference are removed; the invariant is kept |
| `PackagerImplementation.Packager.NotifyStateChange` | Packager/PackagerImplementation.cpp:409-417 | the loop delivers the report once to every listing; the invariant is kept |
| `PackagerImplementation.Packager.NotifyRepoSynced` | Packager/PackagerImplementation.cpp:419-427 | syncing ends, and with it a synchronisation job; the invariant is kept |
| `PackagerImplementation.Packager.DoWork` | Packager/PackagerImplementation.cpp:163-195 | a job is accepted iff none is in progress and opkg could be initialised anew, with the three result codes; the invariant is kept |
| `PackagerImplementation.Packager.WorkerTest` | Packager/PackagerImplementation.h:272-272 | an iteration begins only while the thread is running; the invariant is kept |
| `PackagerImplementation.Packager.WorkerRead` | Packager/PackagerImplementation.h:273-276 | the worker's look at the job under the lock; the invariant is kept |
| `PackagerImplementation.Packager.WorkerScan` | Packager/PackagerImplementation.cpp:448-462 | lists are used as they are, and the package is installed at once, iff the mode is SETUP, an update is not forced and there are files; the invariant is kept |
| `PackagerImplementation.Packager.SetInstallState` | Packager/PackagerImplementation.h:214-218 | the state is set and waits to be announced; the invariant is kept |
| `PackagerImplementation.Packager.SetInstallError` | Packager/PackagerImplementation.cpp:243-247 | the error is set and waits to be announced; the invariant is kept |
| `PackagerImplementation.Packager.InstallationProgress` | Packager/PackagerImplementation.cpp:252-290 | one callback announces exactly the states of `PackagerProgress`; it leaves INSTALLED at 100 percent, and below it the phase it reports; the invariant is kept |
| `PackagerImplementation.Packager.WorkerClear` | Packager/PackagerImplementation.h:284-291 | the job is cleared and counted as finished; the invariant is kept |
| `PackagerImplementation.Packager.WorkerBlock` | Packager/PackagerImplementation.h:293-293 | the thread blocks, whatever was accepted meanwhile; the invariant is kept |
| `JsonRpcPromises.StepKeeps` | helpers/WebSockets/CommunicationInterface/JsonRpcInterface.h:73-225 | every step of every call and every message keeps the table invariant |
| `JsonRpcPromises.TableHoldsExactlyTheOpenCalls` | helpers/WebSockets/CommunicationInterface/JsonRpcInterface.h:149-193 | in every run the keys are exactly the ids of calls between creation and removal, each owned by one call, however many passed the early check |
| `JsonRpcPromises.ReturnedCallsLeaveNothing` | helpers/WebSockets/CommunicationInterface/JsonRpcInterface.h:149-186 | a call that has returned owns no entry |
| `JsonRpcPromises.OnlyTheOwnerIsFulfilled` | helpers/WebSockets/CommunicationInterface/JsonRpcInterface.h:214-225 | a message fulfils exactly the call that is open with its id and has no answer yet, changes nothing else of any call, and is dropped iff no open call has its id |
| `JsonRpcPromises.TurnedAwayIff` | helpers/WebSockets/CommunicationInterface/JsonRpcInterface.h:75-87 | each of the two checks turns a call away iff a call with its id is open at that moment |
| `JsonRpcPromises.FutureWasDelivered` | helpers/WebSockets/CommunicationInterface/JsonRpcInterface.h:214-225 | what a future holds was delivered earlier in the run to this call while its entry stood |
| `JsonRpcPromises.TrueOnlyForAMatchingSuccess` | helpers/WebSockets/CommunicationInterface/JsonRpcInterface.h:228-264 | a call returns true only for a valid result with its id and `success` true, delivered while its entry stood |
| `JsonRpcPromises.ReturnsTrueIff` | helpers/WebSockets/CommunicationInterface/JsonRpcInterface.h:149-166 | in every run a call returns true iff the answer found when its wait ended was a valid response with its id whose result says success |
| `JsonRpcPromises.UnsentReturnsFalse` | helpers/WebSockets/CommunicationInterface/JsonRpcInterface.h:91-101 | in every run a request that could not be sent returns false, whatever arrives meanwhile |
| `JsonRpcPromises.SuccessIsReachable` | helpers/WebSockets/CommunicationInterface/JsonRpcInterface.h:73-103 | from every initial state a request with any id can be sent, answered and return true |
| `JsonRpcInterface.Interface.constructor` | helpers/WebSockets/CommunicationInterface/JsonRpcInterface.h:67-69 | a new interface has an empty table and satisfies the invariant |
| `JsonRpcInterface.Interface.Begin` | helpers/WebSockets/CommunicationInterface/JsonRpcInterface.h:72-75 | a new call with an id that others may use; the invariant is kept |
| `JsonRpcInterface.Interface.IsRequestProcessingOngoing` | helpers/WebSockets/CommunicationInterface/JsonRpcInterface.h:188-193 | the early check; the invariant is kept |
| `JsonRpcInterface.Interface.CreateFutureResponse` | helpers/WebSockets/CommunicationInterface/JsonRpcInterface.h:168-179 | a second call with the same id creates nothing; the invariant is kept |
| `JsonRpcInterface.Interface.Send` | helpers/WebSockets/CommunicationInterface/JsonRpcInterface.h:89-101 | a request that was not sent leads to the clean-up; the invariant is kept |
| `JsonRpcInterface.Interface.AwaitResponse` | helpers/WebSockets/CommunicationInterface/JsonRpcInterface.h:149-166 | ready iff the future is fulfilled; the invariant is kept |
| `JsonRpcInterface.Interface.RemovePromise` | helpers/WebSockets/CommunicationInterface/JsonRpcInterface.h:153-164 | the entry goes before the answer is processed; the call returns true iff its wait found a valid response with its id whose result says success; the invariant is kept |
| `JsonRpcInterface.Interface.Process` | helpers/WebSockets/JsonRpc/Response.cpp:74-110 | true iff the message is a valid response, carries the id and its result says success |
| `JsonRpcInterface.Interface.HandleResponse` | helpers/WebSockets/CommunicationInterface/JsonRpcInterface.h:214-225 | drop, fulfil, or throw without a change on a second response; the invariant is kept |
| `Calendar.YearsAddUp` | MaintenanceManager/MaintenanceManager.cpp:2315-2315 | the year terms of the Epoch formula grow by the length of each year |
| `Calendar.NextDayIsNextNumber` | MaintenanceManager/MaintenanceManager.cpp:2237-2243 | normalising the day after a date gives the next day number, across months, years and leap days |
| `Calendar.DateOfDayNumber` | MaintenanceManager/MaintenanceManager.cpp:2309-2315 | dates and day numbers correspond one to one |
| `StartTime.LeastSlotIsLeast` | MaintenanceManager/MaintenanceManager.cpp:2125-2324 | the specification is the first moment, not before a given one, at which the clock shows the configured time |
| `StartTime.HhmmComparison` | MaintenanceManager/MaintenanceManager.cpp:2202-2204 | the four-digit comparison holds iff today's slot is still ahead |
| `StartTime.SlotOfDay` | MaintenanceManager/MaintenanceManager.cpp:2237-2281 | a slot of some day that lies within a day of a moment is the least one |
| `StartTime.LocalPath` | MaintenanceManager/MaintenanceManager.cpp:2173-2305 | -1 iff a `date` command that is run fails, otherwise exactly the first slot at least ten seconds ahead; the fourth command is run iff a slot lies less than ten seconds ahead |
| `StartTime.UtcPath` | MaintenanceManager/MaintenanceManager.cpp:2307-2324 | the UTC slot of the day's date, with the 86400-second fallback, in terms of least slots |
| `StartTime.CalculateStartTime` | MaintenanceManager/MaintenanceManager.cpp:2125-2324 | -1 for a bad configuration or zone, otherwise the slot of the UTC path, or that of the local path with its failures |
| `StartTime.UtcSlotKeepsItsDistanceIff` | MaintenanceManager/MaintenanceManager.cpp:2315-2321 | the UTC path equals the local path's slot at offset zero iff the slot is not midnight or more than nine seconds of the day are left; it is always ahead, by at most 86409 seconds |
| `StartTime.NoTruncationBefore2038` | MaintenanceManager/MaintenanceManager.cpp:2304-2304 | the conversion to int changes nothing exactly on 32-bit values |
| `SettingsFile.RoundTripIff` | helpers/cSettings.h:160-210 | writing and reading back gives the entries with non-empty values iff no such value contains `=` |
| `SettingsFile.ContainsSurvives` | helpers/cSettings.h:114-127 | `contains` and the values it vouches for survive the round trip |
| `SettingsFile.RenderedByNonEmpty` | helpers/cSettings.h:168-175 | a written text is also the rendering of its non-empty entries alone |
| `SettingsFile.ReadersAgreeIff` | MaintenanceManager/MaintenanceManager.cpp:2371-2401 | the first-`=` reader agrees with the last-`=` reader on every key iff no stored key contains `=` |
| `SettingsFile.LinesOfRender` | helpers/cSettings.h:168-175 | the written text splits into one line for each non-empty entry |
| `SettingsFile.EntryText` | helpers/cSettings.h:168-175 | an entry is written as key, equals sign, value and line end, or not at all if its value is empty |
| `SettingsFile.FoundIsThere` | MaintenanceManager/MaintenanceManager.cpp:2376-2391 | looking a key up in the written lines finds its value iff it is stored and not empty |
| `Settings.CSettings.constructor` | helpers/cSettings.h:41-55 | a file that opens is read; a missing one is created empty if it can be; one that does not open is left as it is and the settings are empty |
| `Settings.CSettings.ContainsKey` | helpers/cSettings.h:114-127 | true iff the key holds a non-empty value |
| `Settings.CSettings.WriteToFile` | helpers/cSettings.h:160-183 | the loop writes exactly the rendering of the data; without a file, or if it cannot be opened, nothing is written |
| `Settings.CSettings.SetValue` | helpers/cSettings.h:79-83 | the entry is stored and the file rewritten |
| `Settings.CSettings.Remove` | helpers/cSettings.h:134-154 | the key is no longer contained whether or not the JSON library removes it |
| `Settings.CSettings.ReadFromFile` | helpers/cSettings.h:189-210 | the getline loop equals reading the lines one after the other into the old data; a file that is missing or does not open changes nothing |
| `Settings.ParseConfig` | MaintenanceManager/MaintenanceManager.cpp:2371-2401 | the loop returns the first match of the first-`=` reader |
| `MaintenanceMode.NextKeeps` | MaintenanceManager/MaintenanceManager.cpp:2483-2596 | every request keeps: a valid mode, a valid stored opt-out, a file that holds the data, and a flag that agrees with a changed mode |
| `MaintenanceMode.RunKeeps` | MaintenanceManager/MaintenanceManager.cpp:2483-2596 | every state of every run after bootup satisfies it |
| `MaintenanceMode.FileHoldsTheData` | MaintenanceManager/MaintenanceManager.cpp:2429-2431 | looking a key up in a saved file is looking it up in the settings |
| `MaintenanceMode.ReadBackIsSaved` | helpers/cSettings.h:160-210 | a text the settings object wrote is one that it would write again after reading it back |
| `MaintenanceMode.BootInv` | MaintenanceManager/MaintenanceManager.cpp:1568-1582 | bootup from such a text establishes the invariant, whether or not it writes |
| `MaintenanceMode.GetModeAnswersWhatWasAccepted` | MaintenanceManager/MaintenanceManager.cpp:2409-2472 | after bootup from a text the settings object wrote, and any requests, getMaintenanceMode succeeds with the mode, trigger and opt-out accepted last, read off the requests, and once the mode was changed the flag on file agrees with it |
| `MaintenanceMode.FlagOnFileTellsTheMode` | MaintenanceManager/MaintenanceManager.cpp:2526-2552 | once the mode was changed, `background_flag` on file reads true iff the mode accepted last is BACKGROUND, and false iff it is FOREGROUND |
| `MaintenanceMode.AnswerAfterBootup` | MaintenanceManager/MaintenanceManager.cpp:1558-1578 | before any request getMaintenanceMode answers FOREGROUND, no trigger, and the opt-out choice on file, or NONE if that is none of the four |
| `MaintenanceMode.LastRequestIsAnswered` | MaintenanceManager/MaintenanceManager.cpp:2409-2596 | right after a request with one of the two modes, getMaintenanceMode answers its trigger; its mode unless a maintenance runs and the event could not be sent; and its opt-out choice iff it is one of the four |
| `MaintenanceMode.CompletionTimeIsOnFile` | MaintenanceManager/MaintenanceManager.cpp:1801-1806 | the time recorded last for a completed cycle is what the file holds for it, whatever modes were set since |
| `MaintenanceMode.AnswerTellsTheModeIff` | MaintenanceManager/MaintenanceManager.cpp:2522-2585 | for a request with a mode other than the current one, the answer agrees with the mode having taken effect iff the opt-out choice is valid just in case the mode is allowed to change |
| `MaintenanceMode.RefusedButChanged` | MaintenanceManager/MaintenanceManager.cpp:2576-2583 | an invalid opt-out choice is refused after the mode has changed |
| `MaintenanceMode.AnsweredButUnchanged` | MaintenanceManager/MaintenanceManager.cpp:2554-2585 | a mode whose event cannot be sent during a maintenance does not change, and the answer is true |
| `MaintenanceMode.ModeManager.constructor` | MaintenanceManager/MaintenanceManager.cpp:1568-1582 | over any file, a valid opt-out leaves it untouched, an invalid or missing one becomes NONE, on file too |
| `MaintenanceMode.ModeManager.Replace` | MaintenanceManager/MaintenanceManager.cpp:2527-2530 | removing and setting a key leaves exactly the new value, in the object and on file |
| `MaintenanceMode.ModeManager.SetMaintenanceMode` | MaintenanceManager/MaintenanceManager.cpp:2483-2596 | the request step; the answer is true iff the mode is one of the two and the opt-out choice one of the four |
| `MaintenanceMode.ModeManager.Accept` | MaintenanceManager/MaintenanceManager.cpp:2517-2585 | the part after the checks: trigger, mode, then opt-out |
| `MaintenanceMode.ModeManager.ApplyMode` | MaintenanceManager/MaintenanceManager.cpp:2522-2565 | the mode and its flag change iff no maintenance is running or the event could be sent |
| `MaintenanceMode.ModeManager.ChangeMode` | MaintenanceManager/MaintenanceManager.cpp:2526-2530 | the mode and its background flag, true iff the mode is BACKGROUND and false otherwise, in the object and on file |
| `MaintenanceMode.ModeManager.StoreOptOut` | MaintenanceManager/MaintenanceManager.cpp:2569-2583 | only one of the four choices is stored, and the answer says so |
| `MaintenanceMode.ModeManager.GetMaintenanceMode` | MaintenanceManager/MaintenanceManager.cpp:2409-2472 | mode, trigger and opt-out from the file, or failure for an invalid mode, a missing file, and a missing or invalid choice |
| `MaintenanceMode.ModeManager.RecordCompletion` | MaintenanceManager/MaintenanceManager.cpp:1804-1806 | recording a completion time is a request that keeps mode and opt-out |
| `PropertyFile.TerminatesIffShallow` | helpers/UtilsgetFileContent.h:37-100 | a lookup terminates iff it does with calls nested at most one deeper than the file has lines, and then its outcome does not depend on the bound |
| `PropertyFile.AcyclicTerminates` | helpers/UtilsgetFileContent.h:57-64 | acyclic references make the lookup terminate within that depth |
| `PropertyFile.SelfReferenceNeverEnds` | helpers/UtilsgetFileContent.h:57-64 | in any file, a property whose first matching line refers to itself is looked up for ever |
| `PropertyFile.SelfReferenceExists` | helpers/UtilsgetFileContent.h:57-64 | there is such a file |
| `PropertyFile.EndlessIff` | helpers/UtilsgetFileContent.h:45-70 | a lookup never ends iff the references it follows, each the first of its property whose predecessors resolve to nothing, come back to one of them |
| `PropertyFile.DeeperIsTheSame` | helpers/UtilsgetFileContent.h:37-100 | more depth changes no finished lookup |
| `PropertyFile.ReadsTheFirstThatResolves` | helpers/UtilsgetFileContent.h:45-86 | the outcome is that of the first matching line that resolves; missing iff there is none |
| `PropertyFile.NeverReturnsAReference` | helpers/UtilsgetFileContent.h:56-84 | no value returned starts with `$` |
| `PropertyFile.WholeLineIsTheValue` | helpers/UtilsgetFileContent.h:52-54 | a first matching line without `=` is itself the value, unless it begins with `$` |
| `PropertyFile.WholeLineIff` | helpers/UtilsgetFileContent.h:54-54 | the text taken from a line is the whole line iff it holds no `=` |
| `PropertyFile.WholeLineExists` | helpers/UtilsgetFileContent.h:52-54 | there is a file with such a line |
| `PropertyFile.ValueFollowsThePropertyIff` | helpers/UtilsgetFileContent.h:52-54 | a line `p=v` gives v, further equals signs included, iff p holds none |
| `PropertyFile.ValueOfTheLine` | helpers/UtilsgetFileContent.h:52-83 | if such a line is the first that matches p and v is no reference, looking p up gives v |
| `PropertyFile.ChompTakesOne` | helpers/UtilsgetFileContent.h:73-81 | one carriage return or line feed is taken off the end of a value, and nothing else |
| `PropertyFile.LongerNameIsNoMatchIff` | helpers/UtilsgetFileContent.h:48-52 | a line that begins with the property matches iff a space or an equals sign follows and it is no comment, so a longer name is not taken for a shorter one |
| `PropertyFile.CommentChangesNothing` | helpers/UtilsgetFileContent.h:47-51 | a line that begins with # changes the outcome of no lookup, at any depth of references |
| `PropertyFile.ReadPropertyFromFile` | helpers/UtilsgetFileContent.h:37-100 | the recursive procedure computes the lookup; the value is empty when not found |
| `Base64.ImageEncoder` | helpers/UtilsString.h:162-193 | the three-state loop appends exactly the grouped encoding, for every byte array |
| `Base64.EncodedLength` | helpers/UtilsString.h:162-193 | 4 * ceil(n / 3) characters with padding, ceil(4n / 3) without |
| `Base64.RoundTrip` | helpers/UtilsString.h:157-193 | a decoder recovers the bytes, padded or not |
| `Base64.EncodeIsInjective` | helpers/UtilsString.h:157-193 | equal texts come from equal bytes, whichever was padded |
| `Base64.GroupIs` | helpers/UtilsString.h:169-180 | the masks and shifts of the three states give the four six-bit pieces of a 24-bit group |
| `Base64.AlphabetIs` | helpers/UtilsString.h:157-159 | capital letters, small letters, digits, plus and slash stand for 0 to 63, in this order |
| `MoveFile.FileSystem.MoveFile` | helpers/UtilsFile.h:31-84 | result and files are those of the specification, for every outcome of the library calls |
| `MoveFile.FileSystem.CopyAll` | helpers/UtilsFile.h:48-74 | the outer loop leaves the prefix of the source that the schedule of reads and writes lets through |
| `MoveFile.FileSystem.WriteOut` | helpers/UtilsFile.h:60-72 | the inner loop appends the buffer by short writes, or stops at the first failing one |
| `MoveFile.TrueMeansMovedIff` | helpers/UtilsFile.h:54-78 | after true, the new file is the old one and the old one is gone iff the source could be removed and no read returned nothing before the end |
| `MoveFile.TrueIff` | helpers/UtilsFile.h:42-46 | with writes that progress, true iff the source is there, the destination is not, and the one can be opened and the other created; without these, false, and nothing is touched |
| `MoveFile.FalseMeansUntouched` | helpers/UtilsFile.h:41-80 | false: every file is as it was, and the file system is unchanged iff nothing was begun or the partial copy could be removed |
| `MoveFile.CopiedAllIff` | helpers/UtilsFile.h:53-74 | a copy without a failed write is complete iff no read returned nothing before the end |
| `MoveFile.ReadsAreBuffered` | helpers/UtilsFile.h:49-57 | a read moves on by 1024 bytes if that much is given and left, to the end if that is nearer, and never by more |
| `MoveFile.ShortWritesAreEnough` | helpers/UtilsFile.h:62-72 | writes that always progress, however short, make a begun call return true |
| `MoveFile.FailedReadLosesTheFile` | helpers/UtilsFile.h:55-58 | a failing first read returns true with an empty copy and no source |
| `MoveFile.UnremovableSourceStays` | helpers/UtilsFile.h:74-76 | a complete copy of a source that cannot be removed leaves both files and returns true |
| `Blink.NextKeeps` | helpers/frontpanel.cpp:501-661 | setting a pattern, stopping and expiring keep the invariant: the schedule stands where the counters say |
| `Blink.TicksStayInRange` | helpers/frontpanel.cpp:639-661 | in every run every tick's list access is in range and what was shown is the beginning of the repeated pattern |
| `Blink.StepLastsItsDuration` | helpers/frontpanel.cpp:639-661 | the pending timer runs for the duration of the step shown last |
| `Blink.Timeline` | helpers/frontpanel.cpp:585-661 | undisturbed, m expiries show exactly pattern[j mod n] for j up to min(m + 1, n * (k + 1)), and the timer is pending iff k < 0 or steps are left |
| `Blink.RestsOnTheLastStep` | helpers/frontpanel.cpp:639-662 | after n * (k + 1) steps nothing is scheduled and the LED shows the last element |
| `Blink.StopIsFinal` | helpers/frontpanel.cpp:602-606 | after a stop nothing is shown until a pattern is set |
| `Blink.FrontPanel.constructor` | helpers/frontpanel.cpp:124-128 | a new panel shows and schedules nothing |
| `Blink.FrontPanel.SetBlink` | helpers/frontpanel.cpp:501-548 | the loop collects the pattern and starts it |
| `Blink.FrontPanel.StartBlinkTimer` | helpers/frontpanel.cpp:585-600 | counters are reset and the first step is shown and scheduled |
| `Blink.FrontPanel.OnBlinkTimer` | helpers/frontpanel.cpp:639-661 | one expiry moves the scheduler by one step of the specification |

## Left out

- Liveness and fairness: the code guarantees none; only the possibility or impossibility of returning is stated, and a join that can return needs calls that turn out well.
- The wait for a device context: testing its condition and beginning to wait are one step, although the event that clears it takes no lock.
- Data races on words: the plain fields read and written without a lock are changed in atomic steps, and `m_thread` is assigned before the new worker takes its first step.
- The blocking of `m_callMutex` and `m_waiMutex`: the worker's sections under them are not serialised against mode requests.
- Network-status events and `startCriticalTasks`, `Deinitialize`, plugin activation, telemetry, IARM registration, security tokens: outside the cycle modelled here.
- The text of broadcasts, the JSON plumbing of requests and answers, and logging.
- `TaskLoop.Worker.RunTasks`: the sequential loop is proved under interference that sets status bits, flags, the abort flag and timer expiries; it is not derived from the step system of `MaintenanceCycle`, which models the same statements at the grain of single steps. The pause before a retry is interference only. The loop form is what the termination and the count of timer starts and launches are about; the step form carries the timer invariant over interleavings (`MaintenanceTimer`).
- `StartTime.LocalPath`: a fixed offset and a clock that stands still between the `date` commands; changes of daylight-saving time in between are not modelled, nor are local times before the Epoch.
- `StartTime.CalculateStartTime`: reading the configuration file and the zone are inputs; `getTimeZone` and the zone-name check are not part of this model.
- `MaintenanceMode.GetModeAnswersWhatWasAccepted`: file writes are taken to succeed; what a failed write leaves is modelled in `Settings` only.
- `PackagerImplementation.Packager.Unregister`: an observer that is not listed fails an assertion of the code; callers are taken to unregister only what they have registered.
- `Settings.CSettings.Remove`: whether the JSON library removes an entry is an input; values other than strings, and text with NUL characters, are not modelled.
- `PackagerSafety.ObserversReceiveASuffix`: a report is a state and an error code; progress percentages, application names and RepositorySynchronize notifications are not part of it, and observers do not call back while being told.
- `PackagerImplementation.Packager.InstallationProgress`: the deactivation of a plugin after 100 percent is not modelled.
- The destructor of the packager, and `~InstallThread`, which may run beside a job.
- `JsonRpcInterface.Interface.HandleResponse`: the exception of a second response leaves the table as it is; where it is caught is not modelled.
- `JsonRpcPromises.TableHoldsExactlyTheOpenCalls`: ids are arbitrary 32-bit numbers; that the generator seldom repeats one is not stated.
- `PropertyFile.ReadPropertyFromFile`: the file does not change and stays readable during a lookup.
- `MoveFile.FileSystem.MoveFile`: directories, file attributes and other processes are not modelled, and `Exists` is exact.
- `Blink.FrontPanel.OnBlinkTimer`: an expiry already under way when a pattern is stopped or replaced is not modelled, and the pass counter does not overflow.
- LED brightness, colours and exceptions of the device library; preferences.
- `searchFilesRec`, `ExpandPropertiesInString`, input validators, `IsValidTimeZone`, `getLastLine` and the enum-to-string functions: easy members, or without a clear specification.

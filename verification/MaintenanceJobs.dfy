/** The jobs of a cycle over whole runs: which are launched, and when none is. */
module MaintenanceJobs {
  import opened Wrappers
  import opened TaskStatus
  import opened MaintenanceHistory
  import opened MaintenanceCycle
  import opened MaintenanceSafety
  import opened MaintenanceTheorems
  import opened MaintenanceWaits

  // ---- What the history says of the current cycle ----

  /** The firmware task was skipped since a worker was last started. */
  predicate Skipped(log: History) {
    match log
    case Start => false
    case Then(_, Spawned(_, _)) => false
    case Then(_, FirmwareSkipped(_, _)) => true
    case Then(past, _) => Skipped(past)
  }

  ghost predicate SkippedInThisCycle(es: seq<Entry>) {
    exists k :: 0 <= k < |es| && es[k].FirmwareSkipped? && forall j :: k < j < |es| ==> !es[j].Spawned?
  }

  lemma {:induction false} SkippedMeans(log: History)
    ensures Skipped(log) <==> SkippedInThisCycle(Entries(log))
  {
    match log
    case Start =>
    case Then(past, e) =>
      SkippedMeans(past);
      SkipStays(Entries(past), e);
  }

  lemma SkipStays(es: seq<Entry>, e: Entry)
    ensures SkippedInThisCycle(es + [e]) <==> e.FirmwareSkipped? || (!e.Spawned? && SkippedInThisCycle(es))
  {
    var l := es + [e];
    assert l[|es|] == e;
    if SkippedInThisCycle(l) && !e.FirmwareSkipped? {
      var k :| 0 <= k < |l| && l[k].FirmwareSkipped? && forall j :: k < j < |l| ==> !l[j].Spawned?;
      assert es[k].FirmwareSkipped? && forall j :: k < j < |es| ==> es[j] == l[j];
    }
    if SkippedInThisCycle(es) && !e.Spawned? {
      var k :| 0 <= k < |es| && es[k].FirmwareSkipped? && forall j :: k < j < |es| ==> !es[j].Spawned?;
      assert l[k].FirmwareSkipped? && forall j :: k < j < |l| ==> !l[j].Spawned?;
    }
  }

  /** At most one entry more, which neither starts a worker nor skips the firmware. */
  predicate SameCycle(log: History, more: History) {
    more == log || (more.Then? && more.past == log && !more.entry.Spawned? && !more.entry.FirmwareSkipped?)
  }

  lemma SameCycleMeans(log: History, more: History)
    requires SameCycle(log, more)
    ensures Skipped(more) == Skipped(log)
  {}

  // ---- The invariant ----

  predicate AtTheLoop(pc: Pc) { pc == LoopTest || OnTask(pc) || pc == Finish }

  /** The jobs of a cycle, in order. */
  function JobsOf(skipped: bool): seq<Task> {
    if skipped then [RFC, LOGUPLOAD] else [RFC, SWUPDATE, LOGUPLOAD]
  }

  predicate OnJob(pc: Pc) { OnTask(pc) && pc != Body }

  /** The worker's job list, its place in it, and its timer. `skipped` is what the history says. */
  predicate JobOk(skipped: bool, abort: bool, current: Option<Task>, created: bool, w: Worker) {
    && (if AtTheLoop(w.pc) then w.tasks == JobsOf(skipped) && w.i <= |w.tasks| else !skipped)
    && (OnTask(w.pc) ==> w.i < |w.tasks|)
    && (w.pc == Finish && w.i < |w.tasks| ==> abort)
    && (OnJob(w.pc) ==> w.i < |w.tasks| && current == Some(w.tasks[w.i]))
    && (w.timerOn ==> created)
    && (w.retry < TASK_RETRY_COUNT || w.pc == Launch || w.pc == Launching || w.pc == Waiting ==> w.timerOn)
    && w.retry <= TASK_RETRY_COUNT
  }

  predicate WorkerJobOk(s: State, w: Worker) { JobOk(Skipped(s.log), s.abort, s.current, s.timer.created, w) }

  ghost predicate JobInv(s: State) {
    forall id :: id in s.threads.live ==> WorkerJobOk(s, s.threads.live[id])
  }

  // ---- Steps of the worker ----

  predicate JobFits(s: State, p: (State, Worker)) {
    p.0.threads == s.threads && WorkerJobOk(p.0, p.1)
  }

  lemma PutKeepsJobs(s: State, p: (State, Worker), id: nat)
    requires Control(s) && id in s.threads.live && JobFits(s, p)
    ensures JobInv(Put(p, id))
  {
    hide JobOk, Skipped;
    var r := Put(p, id);
    forall x | x in r.threads.live ensures r.threads.live[x] == p.1 {
      assert x in s.threads.live && s.threads.handle == Some(x) && s.threads.handle == Some(id);
    }
  }

  lemma ProbeFits(s: State, w: Worker, probe: Probe)
    requires WorkerJobOk(s, w) && w.pc == Probing
    ensures JobFits(s, ProbeStep(s, w, probe))
  {
    hide Skipped;
  }

  lemma BeforeTheLoopFits(s: State, w: Worker)
    requires WorkerJobOk(s, w)
    ensures w.pc == Enter ==> JobFits(s, EnterStep(s, w))
    ensures w.pc == AwaitContext ==> JobFits(s, AwaitStep(s, w))
    ensures NeedsMutex(w.pc) ==> JobFits(s, AnnounceStep(s, w))
  {}

  lemma PlanFits(s: State, w: Worker)
    requires WorkerJobOk(s, w) && w.pc == Plan
    ensures JobFits(s, PlanStep(s, w))
  {
    hide SetStatus;
  }

  lemma AttemptFits(s: State, w: Worker, in_: WorkerInput)
    requires WorkerJobOk(s, w)
    ensures w.pc == LoopTest ==> JobFits(s, TestStep(s, w))
    ensures w.pc == Body ==> JobFits(s, BodyStep(s, w, in_))
  {
    hide Skipped, JobsOf;
  }

  lemma LaunchFits(s: State, w: Worker, in_: WorkerInput)
    requires WorkerJobOk(s, w)
    ensures w.pc == Launch ==> JobFits(s, LaunchStep(s, w))
    ensures w.pc == Launching ==> JobFits(s, LaunchedStep(s, w, in_.launched))
    ensures w.pc == Waiting ==> JobFits(s, WakeStep(s, w, in_.timerSet))
  {
    hide Skipped, JobsOf;
  }

  lemma GivingUpFits(s: State, w: Worker, disarmed: bool)
    requires WorkerJobOk(s, w) && w.pc == LaunchFailure
    ensures JobFits(s, LaunchFailureStep(s, w, disarmed))
  {
    hide SetStatus, JobsOf;
    SameCycleMeans(s.log, LaunchFailureStep(s, w, disarmed).0.log);
    hide Skipped;
  }

  lemma ReturnKeepsJobs(s: State, id: nat, r: State)
    requires Control(s) && id in s.threads.live && r.threads == s.threads
    ensures JobInv(Remove(r, id))
  {
    assert s.threads.handle == Some(id);
    assert forall x :: x !in Remove(r, id).threads.live;
  }

  lemma WorkerKeepsJobs(s: State, id: nat, in_: WorkerInput)
    requires Control(s) && JobInv(s) && id in s.threads.live && WorkerEnabled(s, s.threads.live[id])
    ensures JobInv(WorkerNext(s, id, in_))
  {
    var w := s.threads.live[id];
    assert WorkerJobOk(s, w);
    assert OfflineReturn(s).threads == s.threads && FinishReturn(s, in_.timerSet).threads == s.threads;
    assert OnTask(w.pc) ==> w.i < |w.tasks|;
    hide Control, JobInv, JobFits, WorkerJobOk, Put, Remove, OfflineReturn, FinishReturn;
    hide EnterStep, ProbeStep, AwaitStep, PlanStep, AnnounceStep;
    hide TestStep, BodyStep, LaunchStep, LaunchedStep, LaunchFailureStep, WakeStep;
    BeforeTheLoopFits(s, w);
    AttemptFits(s, w, in_);
    LaunchFits(s, w, in_);
    match w.pc
    case Enter => PutKeepsJobs(s, EnterStep(s, w), id);
    case Announce | NoNetwork | LateAnnounce => PutKeepsJobs(s, AnnounceStep(s, w), id);
    case Probing =>
      ProbeFits(s, w, in_.probe);
      PutKeepsJobs(s, ProbeStep(s, w, in_.probe), id);
    case AwaitContext => PutKeepsJobs(s, AwaitStep(s, w), id);
    case Plan =>
      PlanFits(s, w);
      PutKeepsJobs(s, PlanStep(s, w), id);
    case LoopTest => PutKeepsJobs(s, TestStep(s, w), id);
    case Body => PutKeepsJobs(s, BodyStep(s, w, in_), id);
    case Launch => PutKeepsJobs(s, LaunchStep(s, w), id);
    case Launching => PutKeepsJobs(s, LaunchedStep(s, w, in_.launched), id);
    case LaunchFailure =>
      GivingUpFits(s, w, in_.timerSet);
      PutKeepsJobs(s, LaunchFailureStep(s, w, in_.timerSet), id);
    case Waiting => PutKeepsJobs(s, WakeStep(s, w, in_.timerSet), id);
    case NoNetworkTail => ReturnKeepsJobs(s, id, OfflineReturn(s));
    case Finish => ReturnKeepsJobs(s, id, FinishReturn(s, in_.timerSet));
  }

  // ---- Steps of the others ----

  /** A change that the job of a live worker does not notice. */
  predicate Unnoticed(s: State, r: State) {
    && r.threads.live == s.threads.live && SameCycle(s.log, r.log) && r.current == s.current
    && r.timer.created == s.timer.created && (s.abort ==> r.abort)
  }

  lemma UnnoticedKeeps(s: State, r: State)
    requires JobInv(s) && Unnoticed(s, r)
    ensures JobInv(r)
  {
    SameCycleMeans(s.log, r.log);
    hide Skipped;
    forall id | id in r.threads.live ensures WorkerJobOk(r, r.threads.live[id]) {
      assert WorkerJobOk(s, s.threads.live[id]);
    }
  }

  lemma AppliedUnnoticed(s: State, e: ModuleEvent)
    ensures Unnoticed(s, ApplyEvent(s, e))
  {
    hide SetStatus;
  }

  lemma EventKeepsJobs(s: State, e: ModuleEvent)
    requires JobInv(s)
    ensures JobInv(EventStep(s, e))
  {
    hide ApplyEvent, Verdict, JobInv;
    AppliedUnnoticed(s, e);
    var q, r := ApplyEvent(s, e), EventStep(s, e);
    UnnoticedKeeps(s, q);
    if r != s {
      UnnoticedKeeps(q, r);
    }
  }

  lemma StartKeepsJobs(s: State)
    requires Control(s) && JobInv(s)
    ensures JobInv(StartStep(s))
  {
    var r := StartStep(s);
    SameCycleMeans(s.log, r.log);
    hide Skipped;
    forall id | id in r.threads.live ensures WorkerJobOk(r, r.threads.live[id]) {
      assert WorkerJobOk(s, s.threads.live[id]) && WorkerOk(s, s.threads.live[id]);
    }
  }

  lemma SpawnKeepsJobs(s: State)
    requires s.threads.live == map[]
    ensures JobInv(Spawn(s))
  {}

  lemma BootKeepsJobs(s: State, step: Step)
    requires Control(s) && JobInv(s) && Enabled(s, step)
    requires step.BootReset? || step.BootIdle? || step.BootSpawn? || step.BootFail?
    ensures JobInv(Next(s, step))
  {
    hide WorkerNext, WorkerOk, Skipped;
    if step.BootSpawn? {
      SpawnKeepsJobs(s.(boot := BootDone));
    }
  }

  lemma JoinedKeepsJobs(s: State, step: Step)
    requires Control(s) && Enabled(s, step)
    requires step.HandlerJoined? || step.StartJoined? || step.StopJoined?
    ensures JobInv(Next(s, step))
  {
    hide WorkerNext, WorkerOk;
    AtMostOneLive(s);
    assert s.threads.live == map[];
  }

  lemma RequestKeepsJobs(s: State, step: Step)
    requires JobInv(s) && Enabled(s, step)
    requires step.StopRequest? || step.TimerExpires? || step.AlarmDelivered? || step.ContextUpdate?
      || step.SpuriousWake?
    ensures JobInv(Next(s, step))
  {
    hide JobInv;
    RequestUnnoticed(s, step);
    UnnoticedKeeps(s, Next(s, step));
  }

  lemma RequestUnnoticed(s: State, step: Step)
    requires Enabled(s, step)
    requires step.StopRequest? || step.TimerExpires? || step.AlarmDelivered? || step.ContextUpdate?
      || step.SpuriousWake?
    ensures Unnoticed(s, Next(s, step))
  {
    hide WorkerNext, SetStatus;
  }

  lemma StepKeepsJobs(s: State, step: Step)
    requires Inv(s) && JobInv(s) && Enabled(s, step)
    ensures JobInv(Next(s, step))
  {
    hide Control, Story, JobInv, WorkerNext, EventStep, StartStep;
    match step
    case WorkerStep(id, in_) => WorkerKeepsJobs(s, id, in_);
    case Event(e) => EventKeepsJobs(s, e);
    case StartRequest => StartKeepsJobs(s);
    case BootReset | BootIdle | BootSpawn(_) | BootFail => BootKeepsJobs(s, step);
    case HandlerJoined | StartJoined(_) | StopJoined => JoinedKeepsJobs(s, step);
    case _ => RequestKeepsJobs(s, step);
  }

  lemma {:induction false} RunKeepsJobs(states: seq<State>, steps: seq<Step>, n: nat)
    requires IsRun(states, steps) && n < |states|
    ensures JobInv(states[n])
  {
    if n > 0 {
      hide JobInv, Inv;
      RunKeepsJobs(states, steps, n - 1);
      RunKeeps(states, steps, n - 1);
      StepKeepsJobs(states[n - 1], steps[n - 1]);
    }
  }

  // ---- Which jobs are launched ----

  /** The step launches `t`. */
  predicate Launches(s: State, step: Step, t: Task) {
    && step.WorkerStep? && step.id in s.threads.live
    && var w := s.threads.live[step.id];
       w.pc == Launch && w.i < |w.tasks| && w.tasks[w.i] == t
  }

  /** Whatever is launched has its flag true, is the current task, and has had a timer started for it; the firmware task
      is not launched in a cycle in which it was skipped. */
  lemma WhatIsLaunched(states: seq<State>, steps: seq<Step>, n: nat, t: Task)
    requires IsRun(states, steps) && n < |steps| && Launches(states[n], steps[n], t)
    ensures t in states[n + 1].inFlight && states[n + 1].current == Some(t) && states[n + 1].timer.created
    ensures t == SWUPDATE ==> !SkippedInThisCycle(Told(states, n)) && !SkippedInThisCycle(Told(states, n + 1))
  {
    var s, id := states[n], steps[n].id;
    RunKeepsJobs(states, steps, n);
    assert WorkerJobOk(s, s.threads.live[id]);
    assert states[n + 1] == Put(LaunchStep(s, s.threads.live[id]), id);
    SkippedMeans(s.log);
  }

  /** In its loop the worker has exactly RFC, SWUPDATE and LOGUPLOAD to do, in this order, without SWUPDATE exactly if
      it was skipped in this cycle; when it leaves the loop with no stop under way, it has come to the end of them. */
  lemma JobsOfTheCycle(states: seq<State>, steps: seq<Step>, n: nat, id: nat)
    requires IsRun(states, steps) && n < |states| && id in states[n].threads.live
    requires AtTheLoop(states[n].threads.live[id].pc)
    ensures var w := states[n].threads.live[id];
      && w.tasks == (if SkippedInThisCycle(Told(states, n)) then [RFC, LOGUPLOAD] else [RFC, SWUPDATE, LOGUPLOAD])
      && (w.pc == Finish && !states[n].abort ==> w.i == |w.tasks|)
      && (OnJob(w.pc) ==> w.i < |w.tasks| && states[n].current == Some(w.tasks[w.i]))
  {
    RunKeepsJobs(states, steps, n);
    assert WorkerJobOk(states[n], states[n].threads.live[id]);
    SkippedMeans(states[n].log);
  }

  /** A signal of the timer that finds the flag of the job that the worker waits for completes that job and ends the
      wait. */
  lemma TimeoutEndsTheWait(states: seq<State>, steps: seq<Step>, n: nat, id: nat)
    requires IsRun(states, steps) && n < |states| && id in states[n].threads.live
    requires states[n].threads.live[id].pc == Waiting && states[n].timer.alarm
    ensures var s, w, r := states[n], states[n].threads.live[id], Next(states[n], AlarmDelivered);
      && w.i < |w.tasks|
      && (w.tasks[w.i] in s.inFlight ==>
            Completed(r.status, w.tasks[w.i]) && r.threads == s.threads && WorkerEnabled(r, w))
      && (w.tasks[w.i] !in s.inFlight ==> r.status == s.status && r.signals == s.signals)
  {
    RunKeepsJobs(states, steps, n);
    assert WorkerJobOk(states[n], states[n].threads.live[id]);
    hide SetStatus;
    TaskStatus.SetComplete(states[n].status, states[n].current.value, states[n].current.value);
  }

  /** The loop ends exactly when every job has had its turn or a stop is under way. */
  lemma LoopEndsIff(states: seq<State>, steps: seq<Step>, n: nat, id: nat)
    requires IsRun(states, steps) && n < |steps| && steps[n].WorkerStep? && steps[n].id == id
    requires states[n].threads.live[id].pc == LoopTest
    ensures id in states[n + 1].threads.live
    ensures var w, v := states[n].threads.live[id], states[n + 1].threads.live[id];
      && (v.pc == Finish <==> states[n].abort || w.i == |JobsOf(SkippedInThisCycle(Told(states, n)))|)
      && (v.pc != Finish ==> v == w.(pc := Body))
  {
    JobsOfTheCycle(states, steps, n, id);
    RunKeepsJobs(states, steps, n);
    assert WorkerJobOk(states[n], states[n].threads.live[id]);
    assert states[n + 1] == Put(TestStep(states[n], states[n].threads.live[id]), id);
  }

  /** A launch that failed is tried again exactly if a retry is left and the timer could be started; otherwise the job
      is set to complete and the next one is due, with all its retries. Either way its flag is false, and no other's
      changes. */
  lemma FailedLaunchIsRetriedIff(states: seq<State>, steps: seq<Step>, n: nat, id: nat)
    requires IsRun(states, steps) && n < |steps| && steps[n].WorkerStep? && steps[n].id == id
    requires states[n].threads.live[id].pc == LaunchFailure
    ensures id in states[n + 1].threads.live
    ensures var s, r, w, v := states[n], states[n + 1], states[n].threads.live[id], states[n + 1].threads.live[id];
      && w.i < |w.tasks| && v.pc == LoopTest && v.tasks == w.tasks
      && var t := w.tasks[w.i];
         && (v.i == w.i <==> w.retry > 0 && w.timerOn)
         && (v.i == w.i ==> v.retry == w.retry - 1 && v.timerOn && r.status == s.status)
         && (v.i != w.i ==> v.i == w.i + 1 && v.retry == TASK_RETRY_COUNT && Completed(r.status, t))
         && (forall u: Task :: u in r.inFlight <==> u in s.inFlight && u != t)
  {
    var s := states[n];
    RunKeepsJobs(states, steps, n);
    var w := s.threads.live[id];
    assert WorkerJobOk(s, w);
    assert states[n + 1] == Put(LaunchFailureStep(s, w, steps[n].input.timerSet), id);
    TaskStatus.SetComplete(s.status, w.tasks[w.i], w.tasks[w.i]);
    hide SetStatus, Completed;
  }

  /** A worker that leaves its loop takes note of a stop; one that has found no network does not. */
  lemma ReturnForgetsTheStopIff(s: State, id: nat, in_: WorkerInput)
    requires id in s.threads.live && Ends(s.threads.live[id].pc)
    ensures var r := WorkerNext(s, id, in_);
      && id !in r.threads.live
      && (r.abort <==> s.abort && s.threads.live[id].pc == NoNetworkTail)
  {}

  // ---- When no job is launched ----

  lemma OthersLeaveTheWorker(s: State, step: Step, id: nat)
    requires Control(s) && Enabled(s, step) && id in s.threads.live && !step.WorkerStep?
    ensures id in Next(s, step).threads.live && Next(s, step).threads.live[id] == s.threads.live[id]
  {
    hide WorkerNext, EventStep, SetStatus;
    assert s.threads.handle == Some(id);
    if step.Event? {
      EventLeavesThreads(s, step.event);
    }
  }

  lemma EventLeavesThreads(s: State, e: ModuleEvent)
    ensures EventStep(s, e).threads == s.threads
  {
    hide Verdict, SetStatus;
  }

  /** A worker that has returned, or was never started, with this number. */
  predicate Gone(s: State, id: nat) { id !in s.threads.live && id < s.threads.nextId }

  lemma GoneStays(s: State, step: Step, id: nat)
    requires Control(s) && Enabled(s, step) && Gone(s, id)
    ensures Gone(Next(s, step), id)
  {
    hide EventStep, SetStatus;
    match step
    case Event(e) => EventLeavesThreads(s, e);
    case WorkerStep(x, in_) => GoneStaysWith(s, x, in_, id);
    case _ =>
  }

  lemma GoneStaysWith(s: State, x: nat, in_: WorkerInput, id: nat)
    requires x in s.threads.live && WorkerEnabled(s, s.threads.live[x]) && Gone(s, id)
    ensures Gone(WorkerNext(s, x, in_), id)
  {
    var w := s.threads.live[x];
    ThreadsStay(s, w, in_);
    LoopThreadsStay(s, w, in_);
    hide Put, Remove, Gone;
    hide EnterStep, ProbeStep, AwaitStep, PlanStep, AnnounceStep, OfflineReturn, FinishReturn;
    hide TestStep, BodyStep, LaunchStep, LaunchedStep, LaunchFailureStep, WakeStep;
    match w.pc
    case Enter => PutLeavesGone(s, x, EnterStep(s, w), id);
    case Announce | NoNetwork | LateAnnounce => PutLeavesGone(s, x, AnnounceStep(s, w), id);
    case Probing => PutLeavesGone(s, x, ProbeStep(s, w, in_.probe), id);
    case AwaitContext => PutLeavesGone(s, x, AwaitStep(s, w), id);
    case Plan => PutLeavesGone(s, x, PlanStep(s, w), id);
    case LoopTest => PutLeavesGone(s, x, TestStep(s, w), id);
    case Body => PutLeavesGone(s, x, BodyStep(s, w, in_), id);
    case Launch => PutLeavesGone(s, x, LaunchStep(s, w), id);
    case Launching => PutLeavesGone(s, x, LaunchedStep(s, w, in_.launched), id);
    case LaunchFailure => PutLeavesGone(s, x, LaunchFailureStep(s, w, in_.timerSet), id);
    case Waiting => PutLeavesGone(s, x, WakeStep(s, w, in_.timerSet), id);
    case NoNetworkTail => RemoveLeavesGone(s, x, OfflineReturn(s), id);
    case Finish => RemoveLeavesGone(s, x, FinishReturn(s, in_.timerSet), id);
  }

  lemma PutLeavesGone(s: State, x: nat, p: (State, Worker), id: nat)
    requires x in s.threads.live && p.0.threads == s.threads && Gone(s, id)
    ensures Gone(Put(p, x), id)
  {}

  lemma RemoveLeavesGone(s: State, x: nat, r: State, id: nat)
    requires r.threads == s.threads && Gone(s, id)
    ensures Gone(Remove(r, x), id)
  {}

  lemma ThreadsStay(s: State, w: Worker, in_: WorkerInput)
    ensures EnterStep(s, w).0.threads == s.threads && ProbeStep(s, w, in_.probe).0.threads == s.threads
    ensures AwaitStep(s, w).0.threads == s.threads && PlanStep(s, w).0.threads == s.threads
    ensures NeedsMutex(w.pc) ==> AnnounceStep(s, w).0.threads == s.threads
    ensures OfflineReturn(s).threads == s.threads && FinishReturn(s, in_.timerSet).threads == s.threads
  {
    hide SetStatus;
  }

  lemma LoopThreadsStay(s: State, w: Worker, in_: WorkerInput)
    ensures TestStep(s, w).0.threads == s.threads && LaunchedStep(s, w, in_.launched).0.threads == s.threads
    ensures WakeStep(s, w, in_.timerSet).0.threads == s.threads
    ensures w.i < |w.tasks| ==>
      && BodyStep(s, w, in_).0.threads == s.threads && LaunchStep(s, w).0.threads == s.threads
      && LaunchFailureStep(s, w, in_.timerSet).0.threads == s.threads
  {
    hide SetStatus;
  }

  /** How often the worker `id` launches a job in the first `k` steps. */
  function LaunchCount(states: seq<State>, steps: seq<Step>, id: nat, k: nat): nat
    requires |states| == |steps| + 1 && k <= |steps|
  {
    if k == 0 then 0
    else
      var s, step := states[k - 1], steps[k - 1];
      LaunchCount(states, steps, id, k - 1) +
      if step.WorkerStep? && step.id == id && id in s.threads.live && s.threads.live[id].pc == Launch then 1 else 0
  }

  predicate AboutToLaunch(s: State, id: nat) { id in s.threads.live && s.threads.live[id].pc == Launch }

  /** The worker is being stopped, or is gone. */
  predicate Stopping(s: State, id: nat) {
    Gone(s, id) || (id in s.threads.live && s.mutex == StopJoining && s.abort)
  }

  lemma StoppingStep(s: State, step: Step, id: nat)
    requires Inv(s) && Stopping(s, id) && Enabled(s, step)
    ensures Stopping(Next(s, step), id)
    ensures AboutToLaunch(Next(s, step), id) ==> AboutToLaunch(s, id) && !step.WorkerStep?
  {
    hide Story, WorkerOk;
    if Gone(s, id) {
      GoneStays(s, step, id);
    } else {
      assert s.threads.handle == Some(id);
      hide Control;
      if step.WorkerStep? {
        assert step.id == id;
        StoppedWorker(s, id, step.input);
      } else {
        OthersLeaveTheStop(s, step, id);
      }
    }
  }

  lemma OthersLeaveTheStop(s: State, step: Step, id: nat)
    requires Control(s) && Enabled(s, step) && !step.WorkerStep?
    requires id in s.threads.live && s.mutex == StopJoining && s.abort
    ensures Next(s, step).mutex == StopJoining && Next(s, step).abort
    ensures id in Next(s, step).threads.live && Next(s, step).threads.live[id] == s.threads.live[id]
  {
    hide WorkerNext, EventStep, SetStatus, WorkerOk;
    assert s.threads.handle == Some(id);
  }

  lemma StoppedWorker(s: State, id: nat, in_: WorkerInput)
    requires id in s.threads.live && s.mutex == StopJoining && s.abort && WorkerEnabled(s, s.threads.live[id])
    requires id < s.threads.nextId
    ensures var r := WorkerNext(s, id, in_);
      Stopping(r, id) && !AboutToLaunch(r, id)
  {
    hide SetStatus;
  }

  /** Once a stop is under way the worker launches at most one job more, and none unless it was just about to. */
  lemma {:induction false} AStopEndsTheLaunches(states: seq<State>, steps: seq<Step>, id: nat, k: nat)
    requires IsExecution(states, steps) && Inv(states[0]) && Stopping(states[0], id) && k < |states|
    ensures Stopping(states[k], id)
    ensures LaunchCount(states, steps, id, k) + (if AboutToLaunch(states[k], id) then 1 else 0)
      <= if AboutToLaunch(states[0], id) then 1 else 0
  {
    if k > 0 {
      hide Stopping, Inv, AboutToLaunch;
      AStopEndsTheLaunches(states, steps, id, k - 1);
      ExecutionKeeps(states, steps, k - 1);
      StoppingStep(states[k - 1], steps[k - 1], id);
      LaunchNeedsIt(states[k - 1], steps[k - 1], id);
    }
  }

  lemma LaunchNeedsIt(s: State, step: Step, id: nat)
    ensures AboutToLaunch(s, id) <==> id in s.threads.live && s.threads.live[id].pc == Launch
  {}

  // ---- Without a network ----

  /** The checks find no way to the network: it is not there, or was not asked for on a deactivated device. */
  predicate FindsNoNetwork(cfg: Config, p: Probe) {
    !p.online || (!cfg.whoAmI && cfg.suppress && p.activation == ActivationDisconnect)
  }

  /** Where the checks lead. Only the boot cycle with WhoAmI support waits for its context, and goes on without a
      network on a device that is known and not activated. */
  lemma ChecksLeadTo(s: State, w: Worker, p: Probe)
    ensures var boot, pc := s.cfg.whoAmI && s.kind == UnsolicitedMaintenance, ProbeStep(s, w, p).1.pc;
      && (pc == AwaitContext <==> boot && !p.knowsWhoAmI && p.activation != Activated)
      && (pc == NoNetwork <==> FindsNoNetwork(s.cfg, p) && (boot ==> p.activation == Activated))
      && (pc != AwaitContext && pc != NoNetwork ==> pc == if w.delay then LateAnnounce else Plan)
    ensures ProbeStep(s, w, p).1.skipFirmware <==> SkipsFirmware(s.cfg, p.activation)
  {}

  predicate GivingUp(s: State, id: nat) {
    || Gone(s, id)
    || (id in s.threads.live && (s.threads.live[id].pc == NoNetwork || s.threads.live[id].pc == NoNetworkTail))
  }

  lemma GivingUpStep(s: State, step: Step, id: nat)
    requires Inv(s) && GivingUp(s, id) && Enabled(s, step)
    ensures GivingUp(Next(s, step), id)
    ensures Gone(Next(s, step), id) && id in s.threads.live ==> s.notify == Error && Next(s, step).notify == Error
    ensures !AboutToLaunch(s, id)
  {
    hide Story;
    if Gone(s, id) {
      GoneStays(s, step, id);
    } else {
      assert s.threads.handle == Some(id) && WorkerOk(s, s.threads.live[id]);
      if step.WorkerStep? {
        assert step.id == id;
        LastStepsOf(s, id, step.input);
      } else {
        OthersLeaveTheWorker(s, step, id);
      }
    }
  }

  lemma LastStepsOf(s: State, id: nat, in_: WorkerInput)
    requires id in s.threads.live && GivingUp(s, id) && WorkerEnabled(s, s.threads.live[id]) && id < s.threads.nextId
    ensures var r := WorkerNext(s, id, in_);
      GivingUp(r, id) && (id !in r.threads.live ==> r.notify == s.notify)
      && (s.threads.live[id].pc == NoNetwork ==> r.notify == Error)
  {}

  /** A cycle whose checks find no network, and of a boot with WhoAmI support one on an activated device, launches no
      job, and its status is ERROR when its worker returns. */
  lemma {:induction false} OfflineCycleLaunchesNothing(states: seq<State>, steps: seq<Step>, id: nat, k: nat)
    requires IsExecution(states, steps) && Inv(states[0]) && 0 < k < |states|
    requires id in states[0].threads.live && states[0].threads.live[id].pc == Probing
    requires steps[0].WorkerStep? && steps[0].id == id && FindsNoNetwork(states[0].cfg, steps[0].input.probe)
    requires LateCycle(states[0]) ==> steps[0].input.probe.activation == Activated
    ensures GivingUp(states[k], id) && LaunchCount(states, steps, id, k) == 0
    ensures id in states[k - 1].threads.live && id !in states[k].threads.live ==> states[k].notify == Error
  {
    if k == 1 {
      ChecksLeadTo(states[0], states[0].threads.live[id], steps[0].input.probe);
      assert states[1] == Put(ProbeStep(states[0], states[0].threads.live[id], steps[0].input.probe), id);
      assert LaunchCount(states, steps, id, 0) == 0;
    } else {
      hide GivingUp, Inv, AboutToLaunch, Gone;
      OfflineCycleLaunchesNothing(states, steps, id, k - 1);
      ExecutionKeeps(states, steps, k - 1);
      GivingUpStep(states[k - 1], steps[k - 1], id);
      LaunchNeedsIt(states[k - 1], steps[k - 1], id);
      if id !in states[k].threads.live {
        GivenUpIsGone(states[k], id);
      }
    }
  }

  lemma GivenUpIsGone(s: State, id: nat)
    requires GivingUp(s, id) && id !in s.threads.live
    ensures Gone(s, id)
  {}

  // ---- Waiting for a device context ----

  /** Waiting for the device context, with the flag of the wait set. */
  predicate AwaitsContext(s: State, id: nat) {
    id in s.threads.live && s.threads.live[id].pc == AwaitContext && s.signals.listenContext
  }

  /** Such a wait goes on through every step except the arrival of a device context that could be set, which ends it. */
  lemma OnlyAContextEndsTheWait(s: State, step: Step, id: nat)
    requires Inv(s) && AwaitsContext(s, id) && Enabled(s, step)
    ensures AwaitsContext(Next(s, step), id) <==> step != ContextUpdate(true)
    ensures step == ContextUpdate(true) ==> WorkerEnabled(Next(s, step), s.threads.live[id])
  {
    hide Story, EventStep, SetStatus, WorkerNext;
    assert s.threads.handle == Some(id) && WorkerOk(s, s.threads.live[id]);
    if !step.WorkerStep? {
      OthersLeaveTheWorker(s, step, id);
      if step.Event? {
        EventLeavesTheContext(s, step.event);
      }
    }
  }

  lemma EventLeavesTheContext(s: State, e: ModuleEvent)
    ensures EventStep(s, e).signals.listenContext == s.signals.listenContext
  {
    hide Verdict, SetStatus;
  }
}

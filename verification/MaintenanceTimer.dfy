/** The timer over whole runs of the maintenance cycle: no task timer is left armed when the cycle ends. */
module MaintenanceTimer {
  import opened Wrappers
  import opened TaskStatus
  import opened MaintenanceHistory
  import opened MaintenanceCycle
  import opened MaintenanceSafety
  import opened MaintenanceTheorems

  /** Every attempt to disarm the timer in this step succeeds. The worker disarms it anywhere but where it arms it. */
  predicate Disarms(s: State, step: Step) {
    match step
    case WorkerStep(id, in_) => id in s.threads.live && s.threads.live[id].pc != Body ==> in_.timerSet
    case StopRequest(_, disarmed) => disarmed
    case _ => true
  }

  /** The worker will still disarm the timer, or let it run out, before it returns. */
  predicate UsesTimer(abort: bool, w: Worker) {
    match w.pc
    case Launch | Launching | Waiting | LaunchFailure => true
    case LoopTest => abort || (w.retry < TASK_RETRY_COUNT && w.i < |w.tasks|)
    case Body => abort || w.retry < TASK_RETRY_COUNT
    case Finish => abort
    case _ => false
  }

  predicate RetriesOk(ts: Threads) {
    forall id :: id in ts.live ==> ts.live[id].retry <= TASK_RETRY_COUNT
  }

  /** An armed timer exists, and belongs to a live worker that will disarm it. */
  ghost predicate TimerInv(s: State) {
    && (s.timer.armed ==>
          s.timer.created && exists id :: id in s.threads.live && UsesTimer(s.abort, s.threads.live[id]))
    && RetriesOk(s.threads)
  }

  predicate TimerFits(timer: Timer, abort: bool, w: Worker) {
    && (timer.armed ==> timer.created && UsesTimer(abort, w))
    && w.retry <= TASK_RETRY_COUNT
  }

  /** With a live worker, the timer is its own. */
  lemma TimerIsTheWorkers(s: State, id: nat)
    requires Control(s) && TimerInv(s) && id in s.threads.live
    ensures TimerFits(s.timer, s.abort, s.threads.live[id])
  {
    hide UsesTimer;
    if s.timer.armed {
      var x :| x in s.threads.live && UsesTimer(s.abort, s.threads.live[x]);
      assert s.threads.handle == Some(x) && s.threads.handle == Some(id);
    }
  }

  lemma UsesTimerInLoop(s: State, id: nat)
    requires Control(s) && id in s.threads.live && UsesTimer(s.abort, s.threads.live[id])
    ensures s.notify == Started && s.boot == BootDone && s.threads.handle == Some(id)
  {
    assert WorkerOk(s, s.threads.live[id]);
  }

  // ---- Steps of the worker ----

  /** What a step of the worker makes of the shared state and of its locals fits together. */
  predicate HandsOn(s: State, p: (State, Worker)) {
    p.0.threads == s.threads && TimerFits(p.0.timer, p.0.abort, p.1)
  }

  lemma PutKeepsTimer(s: State, p: (State, Worker), id: nat)
    requires HandsOn(s, p) && RetriesOk(s.threads)
    ensures TimerInv(Put(p, id))
  {
    hide UsesTimer;
    var r := Put(p, id);
    assert id in r.threads.live && r.threads.live[id] == p.1;
  }

  lemma BeforeTheLoop(s: State, w: Worker, probe: Probe)
    requires TimerFits(s.timer, s.abort, w)
    ensures w.pc == Enter ==> HandsOn(s, EnterStep(s, w))
    ensures w.pc == AwaitContext ==> HandsOn(s, AwaitStep(s, w))
    ensures w.pc == Plan ==> HandsOn(s, PlanStep(s, w))
    ensures NeedsMutex(w.pc) ==> HandsOn(s, AnnounceStep(s, w))
  {
    hide SetStatus;
  }

  lemma ProbeHandsOn(s: State, w: Worker, probe: Probe)
    requires TimerFits(s.timer, s.abort, w) && w.pc == Probing
    ensures HandsOn(s, ProbeStep(s, w, probe))
  {}

  lemma TestHandsOn(s: State, w: Worker)
    requires TimerFits(s.timer, s.abort, w) && w.pc == LoopTest
    ensures HandsOn(s, TestStep(s, w))
  {}

  lemma LaunchHandsOn(s: State, w: Worker, launched: bool)
    requires TimerFits(s.timer, s.abort, w)
    ensures w.pc == Launch && w.i < |w.tasks| ==> HandsOn(s, LaunchStep(s, w))
    ensures w.pc == Launching ==> HandsOn(s, LaunchedStep(s, w, launched))
  {}

  lemma BodyHandsOn(s: State, w: Worker, in_: WorkerInput)
    requires TimerFits(s.timer, s.abort, w) && w.pc == Body && w.i < |w.tasks|
    ensures HandsOn(s, BodyStep(s, w, in_))
  {}

  lemma EndOfAttemptHandsOn(s: State, w: Worker)
    requires TimerFits(s.timer, s.abort, w)
    ensures w.pc == LaunchFailure && w.i < |w.tasks| ==> HandsOn(s, LaunchFailureStep(s, w, true))
    ensures w.pc == Waiting ==> HandsOn(s, WakeStep(s, w, true))
  {
    hide SetStatus;
  }

  lemma AtTheEnd(s: State, w: Worker)
    requires TimerFits(s.timer, s.abort, w)
    ensures w.pc == NoNetworkTail ==> !OfflineReturn(s).timer.armed && OfflineReturn(s).threads == s.threads
    ensures w.pc == Finish ==> !FinishReturn(s, true).timer.armed && FinishReturn(s, true).threads == s.threads
  {}

  lemma PlanningKeepsTimer(s: State, id: nat, in_: WorkerInput)
    requires id in s.threads.live && WorkerEnabled(s, s.threads.live[id])
    requires TimerFits(s.timer, s.abort, s.threads.live[id]) && RetriesOk(s.threads)
    requires !InLoopOrEnd(s.threads.live[id].pc)
    ensures TimerInv(WorkerNext(s, id, in_))
  {
    hide TimerInv, TimerFits, HandsOn, RetriesOk, Put, EnterStep, ProbeStep, AnnounceStep, AwaitStep, PlanStep;
    var w := s.threads.live[id];
    BeforeTheLoop(s, w, in_.probe);
    match w.pc
    case Enter => PutKeepsTimer(s, EnterStep(s, w), id);
    case Probing =>
      ProbeHandsOn(s, w, in_.probe);
      PutKeepsTimer(s, ProbeStep(s, w, in_.probe), id);
    case Announce | NoNetwork | LateAnnounce => PutKeepsTimer(s, AnnounceStep(s, w), id);
    case AwaitContext => PutKeepsTimer(s, AwaitStep(s, w), id);
    case Plan => PutKeepsTimer(s, PlanStep(s, w), id);
  }

  predicate InLoopOrEnd(pc: Pc) { pc == LoopTest || OnTask(pc) || Ends(pc) }

  lemma LoopKeepsTimer(s: State, id: nat, in_: WorkerInput)
    requires id in s.threads.live && WorkerEnabled(s, s.threads.live[id])
    requires TimerFits(s.timer, s.abort, s.threads.live[id]) && RetriesOk(s.threads)
    requires InLoopOrEnd(s.threads.live[id].pc)
    requires s.threads.live[id].pc != Body ==> in_.timerSet
    ensures TimerInv(WorkerNext(s, id, in_))
  {
    hide TimerFits, HandsOn, Put, OfflineReturn, FinishReturn;
    hide TestStep, BodyStep, LaunchStep, LaunchedStep, LaunchFailureStep, WakeStep;
    var w := s.threads.live[id];
    LaunchHandsOn(s, w, in_.launched);
    EndOfAttemptHandsOn(s, w);
    if Ends(w.pc) {
      AtTheEnd(s, w);
    } else {
      hide TimerInv, RetriesOk;
      match w.pc
      case LoopTest =>
        TestHandsOn(s, w);
        PutKeepsTimer(s, TestStep(s, w), id);
      case Body =>
        BodyHandsOn(s, w, in_);
        PutKeepsTimer(s, BodyStep(s, w, in_), id);
      case Launch => PutKeepsTimer(s, LaunchStep(s, w), id);
      case Launching => PutKeepsTimer(s, LaunchedStep(s, w, in_.launched), id);
      case LaunchFailure => PutKeepsTimer(s, LaunchFailureStep(s, w, true), id);
      case Waiting => PutKeepsTimer(s, WakeStep(s, w, true), id);
    }
  }

  /** A step of the worker hands the timer on or disarms it. */
  lemma WorkerKeepsTimer(s: State, id: nat, in_: WorkerInput)
    requires Control(s) && TimerInv(s) && id in s.threads.live && WorkerEnabled(s, s.threads.live[id])
    requires s.threads.live[id].pc != Body ==> in_.timerSet
    ensures TimerInv(WorkerNext(s, id, in_))
  {
    hide Control, TimerFits, WorkerNext, WorkerEnabled, UsesTimer, RetriesOk;
    TimerIsTheWorkers(s, id);
    if InLoopOrEnd(s.threads.live[id].pc) {
      LoopKeepsTimer(s, id, in_);
    } else {
      PlanningKeepsTimer(s, id, in_);
    }
  }

  // ---- Steps of the others ----

  /** While the worker uses the timer, nobody else arms it, takes it over, or takes an abort back. */
  lemma OthersLeaveTheTimer(s: State, step: Step, id: nat)
    requires Enabled(s, step) && Disarms(s, step) && !step.WorkerStep? && s.timer.armed && s.timer.created
    requires s.notify == Started && s.boot == BootDone && s.threads.handle == Some(id) && id in s.threads.live
    ensures var r := Next(s, step);
      r.timer.armed ==> r.timer.created && r.threads == s.threads && (s.abort ==> r.abort)
  {
    hide ApplyEvent, Verdict, Publish, WorkerNext, Spawn, EventStep;
    match step
    case Event(e) => EventLeaves(s, e);
    case _ =>
  }

  lemma EventLeaves(s: State, e: ModuleEvent)
    ensures var r := EventStep(s, e); r.timer == s.timer && r.threads == s.threads && r.abort == s.abort
  {
    hide Verdict, SetStatus;
  }

  lemma OthersKeepTimer(s: State, step: Step)
    requires Control(s) && TimerInv(s) && Enabled(s, step) && Disarms(s, step) && !step.WorkerStep?
    ensures TimerInv(Next(s, step))
  {
    var r := Next(s, step);
    hide Control, Next, Enabled, Disarms, RetriesOk;
    OthersArmNothing(s, step);
    if r.timer.armed {
      var id :| id in s.threads.live && UsesTimer(s.abort, s.threads.live[id]);
      UsesTimerInLoop(s, id);
      OthersLeaveTheTimer(s, step, id);
      assert id in r.threads.live && UsesTimer(r.abort, r.threads.live[id]);
    }
  }

  /** Nobody but the worker arms the timer or uses retries up. */
  predicate NotArmed(s: State, r: State) {
    (r.timer.armed ==> s.timer.armed) && (RetriesOk(s.threads) ==> RetriesOk(r.threads))
  }

  lemma BootArmsNothing(s: State, step: Step)
    requires Enabled(s, step) && (step.BootReset? || step.BootIdle? || step.BootSpawn? || step.BootFail?)
    ensures NotArmed(s, Next(s, step))
  {
    hide WorkerNext;
  }

  lemma JoinedArmsNothing(s: State, step: Step)
    requires Enabled(s, step) && (step.HandlerJoined? || step.StopJoined?)
    ensures NotArmed(s, Next(s, step))
  {
    hide WorkerNext;
  }

  lemma StartedArmsNothing(s: State, spawned: bool)
    requires s.mutex.StartJoining?
    ensures NotArmed(s, StartJoinedStep(s, spawned))
  {}

  lemma RequestArmsNothing(s: State, step: Step)
    requires Enabled(s, step) && (step.StartRequest? || step.StopRequest? || step.AlarmDelivered?)
    ensures NotArmed(s, Next(s, step))
  {
    hide WorkerNext, SetStatus;
  }

  lemma OthersArmNothing(s: State, step: Step)
    requires Enabled(s, step) && !step.WorkerStep?
    ensures NotArmed(s, Next(s, step))
  {
    hide WorkerNext, EventStep, RetriesOk;
    match step
    case BootReset | BootIdle | BootSpawn(_) | BootFail => BootArmsNothing(s, step);
    case StartJoined(spawned) => StartedArmsNothing(s, spawned);
    case HandlerJoined | StopJoined => JoinedArmsNothing(s, step);
    case StartRequest | StopRequest(_, _) | AlarmDelivered => RequestArmsNothing(s, step);
    case Event(e) => EventLeaves(s, e);
    case _ =>
  }

  lemma StepKeepsTimer(s: State, step: Step)
    requires Inv(s) && TimerInv(s) && Enabled(s, step) && Disarms(s, step)
    ensures TimerInv(Next(s, step))
  {
    hide Control, Story, TimerInv, WorkerNext;
    if step.WorkerStep? {
      WorkerKeepsTimer(s, step.id, step.input);
    } else {
      OthersKeepTimer(s, step);
    }
  }

  ghost predicate AlwaysDisarms(states: seq<State>, steps: seq<Step>)
    requires |states| == |steps| + 1
  {
    forall k :: 0 <= k < |steps| ==> Disarms(states[k], steps[k])
  }

  lemma {:induction false} RunKeepsTimer(states: seq<State>, steps: seq<Step>, n: nat)
    requires IsRun(states, steps) && AlwaysDisarms(states, steps) && n < |states|
    ensures TimerInv(states[n])
  {
    if n > 0 {
      hide TimerInv, Inv, Disarms;
      RunKeepsTimer(states, steps, n - 1);
      RunKeeps(states, steps, n - 1);
      StepKeepsTimer(states[n - 1], steps[n - 1]);
    }
  }

  /** If disarming always succeeds, no timer is armed once there is no worker, and so none is when the event handler or
      stop broadcasts the end of the cycle, in any interleaving. */
  lemma NoTimerOutlivesItsCycle(states: seq<State>, steps: seq<Step>, n: nat)
    requires IsRun(states, steps) && AlwaysDisarms(states, steps) && n < |states|
    ensures states[n].threads.live == map[] ==> !states[n].timer.armed
    ensures n < |steps| && (steps[n] == HandlerJoined || steps[n] == StopJoined) ==>
      !states[n].timer.armed && !states[n + 1].timer.armed
  {
    RunKeepsTimer(states, steps, n);
    if n < |steps| && (steps[n] == HandlerJoined || steps[n] == StopJoined) {
      RunKeeps(states, steps, n);
      AtMostOneLive(states[n]);
    }
  }
}

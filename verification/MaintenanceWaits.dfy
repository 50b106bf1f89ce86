/** What else every step of the maintenance cycle keeps: when the abort flag can be set, and when the device context is
    waited for. */
module MaintenanceWaits {
  import opened Wrappers
  import opened TaskStatus
  import opened MaintenanceHistory
  import opened MaintenanceCycle
  import opened MaintenanceSafety
  import opened MaintenanceTheorems

  /** The abort flag is set only while a stop is pending or after one whose worker did not take note of it. */
  predicate AbortOk(s: State) {
    s.abort ==>
      || s.mutex == StopJoining
      || (s.threads.live == map[] && s.notify != Started && !s.mutex.StartJoining? &&
          (s.boot == BootDone || s.boot == AtReset))
  }

  /** Whoever listens for a device context is a worker that waits for it. */
  ghost predicate ListenOk(s: State) {
    s.signals.listenContext ==> exists id :: id in s.threads.live && s.threads.live[id].pc == AwaitContext
  }

  ghost predicate WaitInv(s: State) { AbortOk(s) && ListenOk(s) }

  // ---- Steps of the worker ----

  /** A step of the worker leaves the abort flag and the mutex alone, and listens only by waiting. */
  predicate Fits(s: State, p: (State, Worker)) {
    && p.0.threads == s.threads && p.0.abort == s.abort && p.0.mutex == s.mutex
    && (p.0.signals.listenContext ==> s.signals.listenContext || p.1.pc == AwaitContext)
  }

  lemma PlanningFits(s: State, w: Worker, probe: Probe)
    ensures Fits(s, EnterStep(s, w)) && Fits(s, ProbeStep(s, w, probe)) && Fits(s, AwaitStep(s, w))
    ensures Fits(s, PlanStep(s, w))
    ensures NeedsMutex(w.pc) ==> Fits(s, AnnounceStep(s, w))
  {
    hide SetStatus;
  }

  lemma LoopFits(s: State, w: Worker, in_: WorkerInput)
    ensures Fits(s, TestStep(s, w)) && Fits(s, LaunchedStep(s, w, in_.launched))
    ensures Fits(s, WakeStep(s, w, in_.timerSet))
    ensures w.i < |w.tasks| ==> Fits(s, BodyStep(s, w, in_)) && Fits(s, LaunchStep(s, w))
    ensures w.i < |w.tasks| ==> Fits(s, LaunchFailureStep(s, w, in_.timerSet))
  {
    hide SetStatus;
  }

  /** A worker that takes a step is not listening, and while one lives an abort means a pending stop. */
  lemma StepperListensNot(s: State, id: nat)
    requires Control(s) && WaitInv(s) && id in s.threads.live && WorkerEnabled(s, s.threads.live[id])
    ensures !s.signals.listenContext && (s.abort ==> s.mutex == StopJoining)
  {
    assert s.threads.handle == Some(id);
  }

  lemma PutKeepsWaits(s: State, p: (State, Worker), id: nat)
    requires !s.signals.listenContext && (s.abort ==> s.mutex == StopJoining) && Fits(s, p)
    ensures WaitInv(Put(p, id))
  {
    var r := Put(p, id);
    assert id in r.threads.live && r.threads.live[id] == p.1;
  }

  lemma ReturnKeepsWaits(s: State, id: nat, disarmed: bool)
    requires !s.signals.listenContext && (s.abort ==> s.mutex == StopJoining)
    ensures WaitInv(Remove(OfflineReturn(s), id)) && WaitInv(Remove(FinishReturn(s, disarmed), id))
  {}

  lemma WorkerKeepsWaits(s: State, id: nat, in_: WorkerInput)
    requires Control(s) && WaitInv(s) && id in s.threads.live && WorkerEnabled(s, s.threads.live[id])
    ensures WaitInv(WorkerNext(s, id, in_))
  {
    StepperListensNot(s, id);
    hide Control, WaitInv, Fits, Put, Remove, OfflineReturn, FinishReturn;
    hide EnterStep, ProbeStep, AwaitStep, PlanStep, AnnounceStep;
    hide TestStep, BodyStep, LaunchStep, LaunchedStep, LaunchFailureStep, WakeStep;
    var w := s.threads.live[id];
    PlanningFits(s, w, in_.probe);
    LoopFits(s, w, in_);
    match w.pc
    case Enter => PutKeepsWaits(s, EnterStep(s, w), id);
    case Announce | NoNetwork | LateAnnounce => PutKeepsWaits(s, AnnounceStep(s, w), id);
    case Probing => PutKeepsWaits(s, ProbeStep(s, w, in_.probe), id);
    case AwaitContext => PutKeepsWaits(s, AwaitStep(s, w), id);
    case Plan => PutKeepsWaits(s, PlanStep(s, w), id);
    case LoopTest => PutKeepsWaits(s, TestStep(s, w), id);
    case Body => PutKeepsWaits(s, BodyStep(s, w, in_), id);
    case Launch => PutKeepsWaits(s, LaunchStep(s, w), id);
    case Launching => PutKeepsWaits(s, LaunchedStep(s, w, in_.launched), id);
    case LaunchFailure => PutKeepsWaits(s, LaunchFailureStep(s, w, in_.timerSet), id);
    case Waiting => PutKeepsWaits(s, WakeStep(s, w, in_.timerSet), id);
    case NoNetworkTail | Finish => ReturnKeepsWaits(s, id, in_.timerSet);
  }

  // ---- Steps of the others ----

  lemma EventKeepsWaits(s: State, e: ModuleEvent)
    requires WaitInv(s) && s.mutex == Free
    ensures WaitInv(EventStep(s, e))
  {
    hide SetStatus, Verdict;
  }

  lemma BootKeepsWaits(s: State, step: Step)
    requires Control(s) && WaitInv(s) && Enabled(s, step)
    requires step.BootReset? || step.BootIdle? || step.BootSpawn? || step.BootFail?
    ensures WaitInv(Next(s, step))
  {
    hide WorkerNext, WorkerOk;
  }

  lemma JoinedKeepsWaits(s: State, step: Step)
    requires Control(s) && WaitInv(s) && Enabled(s, step)
    requires (step.HandlerJoined? || step.StartJoined? || step.StopJoined?)
    ensures WaitInv(Next(s, step))
  {
    hide WorkerNext, WorkerOk;
    AtMostOneLive(s);
    assert s.threads.live == map[];
    assert !s.signals.listenContext;
  }

  lemma RequestKeepsWaits(s: State, step: Step)
    requires Control(s) && WaitInv(s) && Enabled(s, step)
    requires step.StartRequest? || step.StopRequest? || step.TimerExpires? || step.AlarmDelivered?
      || step.ContextUpdate? || step.SpuriousWake?
    ensures WaitInv(Next(s, step))
  {
    hide WorkerNext, WorkerOk, SetStatus;
  }

  lemma StepKeepsWaits(s: State, step: Step)
    requires Inv(s) && WaitInv(s) && Enabled(s, step)
    ensures WaitInv(Next(s, step))
  {
    hide Control, Story, WaitInv, WorkerNext, EventStep;
    match step
    case WorkerStep(id, in_) => WorkerKeepsWaits(s, id, in_);
    case Event(e) => EventKeepsWaits(s, e);
    case BootReset | BootIdle | BootSpawn(_) | BootFail => BootKeepsWaits(s, step);
    case HandlerJoined | StartJoined(_) | StopJoined => JoinedKeepsWaits(s, step);
    case _ => RequestKeepsWaits(s, step);
  }

  lemma {:induction false} RunKeepsWaits(states: seq<State>, steps: seq<Step>, n: nat)
    requires IsRun(states, steps) && n < |states|
    ensures WaitInv(states[n])
  {
    if n > 0 {
      hide WaitInv, Inv;
      RunKeepsWaits(states, steps, n - 1);
      RunKeeps(states, steps, n - 1);
      StepKeepsWaits(states[n - 1], steps[n - 1]);
    }
  }

  // ---- What ends a cycle that has lost its worker ----

  /** An event ends such a cycle exactly when it leaves every task complete; any other event leaves it as it is. */
  lemma EventEndsOrphanIff(s: State, e: ModuleEvent)
    requires Inv(s) && WaitInv(s) && Orphaned(s)
    ensures var r := EventStep(s, e);
      && (r.mutex.HandlerJoining? <==> forall t: Task :: Completed(ApplyEvent(s, e).status, t))
      && (r.mutex.HandlerJoining? ==> JoinReady(r) && Terminal(HandlerJoinedStep(r).notify))
      && (!r.mutex.HandlerJoining? ==> Orphaned(r))
  {
    hide WorkerOk, SetStatus, Verdict;
    var v := ApplyEvent(s, e).status;
    EventKeeps(s, e);
    AppliedLeaves(s, e);
    MasksMeanAllTasks(v);
    VerdictWhenComplete(v);
  }

  lemma AppliedLeaves(s: State, e: ModuleEvent)
    ensures var r := ApplyEvent(s, e); r.threads == s.threads && r.mutex == s.mutex && r.notify == s.notify
  {
    hide SetStatus;
  }

  lemma VerdictWhenComplete(v: bv16)
    ensures Verdict(v).Some? <==> AllCompleted(v)
    ensures Verdict(v).Some? ==> Terminal(Verdict(v).value)
  {}

  /** A stop ends it at once, with an ERROR. */
  lemma StopEndsOrphan(s: State, killed: bool, disarmed: bool)
    requires Inv(s) && Orphaned(s)
    ensures var r := StopStep(s, killed, disarmed);
      r.mutex == StopJoining && JoinReady(r) && StopJoinedStep(r).notify == Error && StopJoinedStep(r).mutex == Free
  {}
}

/** What a request, an event or a signal achieves: when a start is accepted, and what each of them changes. */
module MaintenanceRequests {
  import opened Wrappers
  import opened TaskStatus
  import opened MaintenanceHistory
  import opened MaintenanceCycle
  import opened MaintenanceSafety
  import opened MaintenanceTheorems

  // ---- When a start is accepted ----

  /** The worker of the boot cycle has reported a missing network and has yet to mark that cycle as ended. */
  ghost predicate Reporting(s: State) {
    s.kind == UnsolicitedMaintenance && exists id :: id in s.threads.live && s.threads.live[id].pc == NoNetworkTail
  }

  /** The boot cycle is marked as ended exactly if a terminal status has been broadcast. */
  ghost predicate EndOk(s: State) {
    s.unsolicitedComplete <==> DigestOf(s.log).anyTerminal && !Reporting(s)
  }

  /** At most one entry more, and no terminal broadcast. */
  predicate SameEnd(log: History, more: History) {
    more == log || (more.Then? && more.past == log && (more.entry.Broadcast? ==> more.entry.status == Started))
  }

  lemma SameEndMeans(log: History, more: History)
    requires SameEnd(log, more)
    ensures DigestOf(more).anyTerminal == DigestOf(log).anyTerminal
  {}

  /** A step of the worker that neither reports a missing network nor touches the end of the boot cycle. */
  predicate Quiet(s: State, p: (State, Worker)) {
    && p.0.threads == s.threads && p.0.kind == s.kind && p.0.unsolicitedComplete == s.unsolicitedComplete
    && SameEnd(s.log, p.0.log)
    && p.1.pc != NoNetworkTail
  }

  lemma PlanningIsQuiet(s: State, w: Worker, probe: Probe)
    ensures Quiet(s, EnterStep(s, w)) && Quiet(s, ProbeStep(s, w, probe)) && Quiet(s, AwaitStep(s, w))
    ensures Quiet(s, PlanStep(s, w))
    ensures NeedsMutex(w.pc) && w.pc != NoNetwork ==> Quiet(s, AnnounceStep(s, w))
  {
    hide SetStatus;
  }

  lemma LoopIsQuiet(s: State, w: Worker, in_: WorkerInput)
    ensures Quiet(s, TestStep(s, w)) && Quiet(s, LaunchedStep(s, w, in_.launched))
    ensures Quiet(s, WakeStep(s, w, in_.timerSet))
    ensures w.i < |w.tasks| ==> Quiet(s, BodyStep(s, w, in_)) && Quiet(s, LaunchStep(s, w))
  {}

  lemma FailureIsQuiet(s: State, w: Worker, disarmed: bool)
    requires w.i < |w.tasks|
    ensures Quiet(s, LaunchFailureStep(s, w, disarmed))
  {
    hide SetStatus;
  }

  lemma PutKeepsEnd(s: State, p: (State, Worker), id: nat)
    requires Control(s) && EndOk(s) && Quiet(s, p) && id in s.threads.live && s.threads.live[id].pc != NoNetworkTail
    ensures EndOk(Put(p, id))
  {
    assert s.threads.handle == Some(id);
    assert !Reporting(s);
    assert !Reporting(Put(p, id));
    SameEndMeans(s.log, p.0.log);
  }

  /** The worker reports a missing network, and then marks the boot cycle as ended. */
  lemma ReportKeepsEnd(s: State, id: nat)
    requires Inv(s) && EndOk(s) && id in s.threads.live && s.boot == BootDone
    ensures s.threads.live[id].pc == NoNetwork ==> EndOk(Put(AnnounceStep(s, s.threads.live[id]), id))
    ensures s.threads.live[id].pc == NoNetworkTail ==> EndOk(Remove(OfflineReturn(s), id))
  {
    var w := s.threads.live[id];
    assert WorkerOk(s, w) && s.threads.handle == Some(id);
    if w.pc == NoNetwork {
      var r := Put(AnnounceStep(s, w), id);
      assert id in r.threads.live && r.threads.live[id].pc == NoNetworkTail;
    } else if w.pc == NoNetworkTail {
      assert forall x :: x !in Remove(OfflineReturn(s), id).threads.live;
    }
  }

  lemma FinishKeepsEnd(s: State, id: nat, disarmed: bool)
    requires Control(s) && EndOk(s) && id in s.threads.live && s.threads.live[id].pc == Finish
    ensures EndOk(Remove(FinishReturn(s, disarmed), id))
  {
    assert s.threads.handle == Some(id);
    assert !Reporting(s);
    assert forall x :: x !in Remove(FinishReturn(s, disarmed), id).threads.live;
  }

  lemma WorkerKeepsEnd(s: State, id: nat, in_: WorkerInput)
    requires Inv(s) && EndOk(s) && id in s.threads.live && WorkerEnabled(s, s.threads.live[id])
    ensures EndOk(WorkerNext(s, id, in_))
  {
    assert Control(s) && s.boot == BootDone;
    hide Inv, Control, EndOk, Quiet, Put, Remove, OfflineReturn, FinishReturn;
    hide EnterStep, ProbeStep, AwaitStep, PlanStep, AnnounceStep;
    hide TestStep, BodyStep, LaunchStep, LaunchedStep, LaunchFailureStep, WakeStep;
    var w := s.threads.live[id];
    PlanningIsQuiet(s, w, in_.probe);
    LoopIsQuiet(s, w, in_);
    match w.pc
    case Enter => PutKeepsEnd(s, EnterStep(s, w), id);
    case Announce | LateAnnounce => PutKeepsEnd(s, AnnounceStep(s, w), id);
    case Probing => PutKeepsEnd(s, ProbeStep(s, w, in_.probe), id);
    case AwaitContext => PutKeepsEnd(s, AwaitStep(s, w), id);
    case Plan => PutKeepsEnd(s, PlanStep(s, w), id);
    case LoopTest => PutKeepsEnd(s, TestStep(s, w), id);
    case Body => PutKeepsEnd(s, BodyStep(s, w, in_), id);
    case Launch => PutKeepsEnd(s, LaunchStep(s, w), id);
    case Launching => PutKeepsEnd(s, LaunchedStep(s, w, in_.launched), id);
    case LaunchFailure =>
      FailureIsQuiet(s, w, in_.timerSet);
      PutKeepsEnd(s, LaunchFailureStep(s, w, in_.timerSet), id);
    case Waiting => PutKeepsEnd(s, WakeStep(s, w, in_.timerSet), id);
    case NoNetwork | NoNetworkTail => ReportKeepsEnd(s, id);
    case Finish => FinishKeepsEnd(s, id, in_.timerSet);
  }

  lemma AppliedLeavesTheEnd(s: State, e: ModuleEvent)
    ensures var r := ApplyEvent(s, e);
      && r.threads == s.threads && r.kind == s.kind && r.unsolicitedComplete == s.unsolicitedComplete
      && SameEnd(s.log, r.log)
  {
    hide SetStatus;
  }

  lemma VerdictLeavesTheEnd(s: State, e: ModuleEvent)
    ensures var q, r := ApplyEvent(s, e), EventStep(s, e);
      r == s ||
      (r.threads == q.threads && r.kind == q.kind && r.unsolicitedComplete == q.unsolicitedComplete &&
       SameEnd(q.log, r.log))
  {
    hide ApplyEvent, Verdict;
  }

  lemma EventKeepsEnd(s: State, e: ModuleEvent)
    requires EndOk(s)
    ensures EndOk(EventStep(s, e))
  {
    hide EventStep, ApplyEvent, SameEnd;
    AppliedLeavesTheEnd(s, e);
    VerdictLeavesTheEnd(s, e);
    SameEndMeans(s.log, ApplyEvent(s, e).log);
    if EventStep(s, e) != s {
      SameEndMeans(ApplyEvent(s, e).log, EventStep(s, e).log);
    }
  }

  lemma BootKeepsEnd(s: State, step: Step)
    requires Inv(s) && EndOk(s) && Enabled(s, step)
    requires step.BootReset? || step.BootIdle? || step.BootSpawn? || step.BootFail?
    ensures EndOk(Next(s, step))
  {
    hide WorkerNext, WorkerOk, StatusOk;
  }

  lemma JoinedKeepsEnd(s: State, step: Step)
    requires Inv(s) && EndOk(s) && Enabled(s, step)
    requires step.HandlerJoined? || step.StartJoined? || step.StopJoined?
    ensures EndOk(Next(s, step))
  {
    hide WorkerNext, WorkerOk, StatusOk;
    AtMostOneLive(s);
    assert s.threads.live == map[];
    assert !Reporting(s);
  }

  lemma RequestKeepsEnd(s: State, step: Step)
    requires Inv(s) && EndOk(s) && Enabled(s, step)
    requires step.StartRequest? || step.StopRequest? || step.TimerExpires? || step.AlarmDelivered?
      || step.ContextUpdate? || step.SpuriousWake?
    ensures EndOk(Next(s, step))
  {
    hide WorkerNext, WorkerOk, SetStatus;
  }

  lemma StepKeepsEnd(s: State, step: Step)
    requires Inv(s) && EndOk(s) && Enabled(s, step)
    ensures EndOk(Next(s, step))
  {
    hide Inv, EndOk, WorkerNext, EventStep;
    match step
    case WorkerStep(id, in_) => WorkerKeepsEnd(s, id, in_);
    case Event(e) => EventKeepsEnd(s, e);
    case BootReset | BootIdle | BootSpawn(_) | BootFail => BootKeepsEnd(s, step);
    case HandlerJoined | StartJoined(_) | StopJoined => JoinedKeepsEnd(s, step);
    case _ => RequestKeepsEnd(s, step);
  }

  lemma {:induction false} RunKeepsEnd(states: seq<State>, steps: seq<Step>, n: nat)
    requires IsRun(states, steps) && n < |states|
    ensures EndOk(states[n])
  {
    if n > 0 {
      hide EndOk, Inv;
      RunKeepsEnd(states, steps, n - 1);
      RunKeeps(states, steps, n - 1);
      StepKeepsEnd(states[n - 1], steps[n - 1]);
    }
  }

  /** A start is accepted exactly when the status is not STARTED and a terminal status of this boot has been broadcast,
      except in the moment between the report of a missing network and the end of the worker that made it. */
  lemma StartIsAcceptedIff(states: seq<State>, steps: seq<Step>, n: nat)
    requires IsRun(states, steps) && n < |states| && states[n].mutex == Free
    ensures var s := states[n];
      StartStep(s).mutex.StartJoining? <==>
        s.notify != Started && TerminalBroadcast(Told(states, n)) && !Reporting(s)
    ensures !StartStep(states[n]).mutex.StartJoining? ==> StartStep(states[n]) == states[n]
  {
    RunKeepsEnd(states, steps, n);
    DigestMeansBroadcasts(states[n].log);
  }

  /** However a cycle has ended, the next start is accepted once its worker is gone. */
  lemma AfterEachCycleAStartIsAccepted(states: seq<State>, steps: seq<Step>, n: nat)
    requires IsRun(states, steps) && n < |states|
    requires states[n].mutex == Free && states[n].threads.live == map[] && Terminal(states[n].notify)
    ensures states[n].unsolicitedComplete && StartStep(states[n]).mutex.StartJoining?
    ensures JoinReady(StartStep(states[n]))
  {
    RunKeepsEnd(states, steps, n);
    RunKeeps(states, steps, n);
  }

  /** Bootup begins an unsolicited cycle with no job complete, no stop under way and no flag raised. */
  lemma BootForgetsTheCycle(s: State)
    requires s.boot == AtReset
    ensures var r := BootResetStep(s);
      && (forall t: Task :: !Completed(r.status, t) && !Succeeded(r.status, t)) && !CheckStatus(r.status, TASK_SKIPPED)
      && !r.abort && !r.flags.rebootPending && !r.flags.critical && r.kind == UnsolicitedMaintenance
      && r.notify == Idle && !r.unsolicitedComplete && StartStep(r) == r
  {}

  /** An accepted start forgets what the earlier cycle completed and a stop that came too late, and announces a reboot;
      it leaves the task flags alone. */
  lemma StartForgetsTheCycle(s: State)
    requires s.mutex == Free && StartStep(s).mutex.StartJoining?
    ensures var r := StartStep(s);
      && (forall t: Task :: !Completed(r.status, t) && !Succeeded(r.status, t)) && !CheckStatus(r.status, TASK_SKIPPED)
      && Verdict(r.status) == None
      && !r.abort && r.flags.rebootPending && !r.flags.critical && r.kind == SolicitedMaintenance
      && r.notify == s.notify && r.inFlight == s.inFlight && r.threads == s.threads
  {
    MasksMeanAllTasks(0);
  }

  /** A start whose thread cannot be created gives the critical flag back, whatever happened while it waited for its
      join. */
  lemma {:induction false} FailedStartKeepsTheCriticalFlag(states: seq<State>, steps: seq<Step>, k: nat)
    requires IsExecution(states, steps) && Inv(states[0]) && states[0].mutex == Free && 0 < k < |states|
    requires steps[0] == StartRequest && states[1].mutex.StartJoining?
    requires forall j :: 1 <= j < k ==> !steps[j].StartJoined?
    ensures states[k].mutex == StartJoining(states[0].flags.critical) && !states[k].flags.critical
    ensures k < |steps| && steps[k] == StartJoined(false) ==> states[k + 1].flags.critical == states[0].flags.critical
    ensures k < |steps| && steps[k] == StartJoined(true) ==> !states[k + 1].flags.critical
  {
    if k > 1 {
      FailedStartKeepsTheCriticalFlag(states, steps, k - 1);
      ExecutionKeeps(states, steps, k - 1);
      JoinLeavesTheFlags(states[k - 1], steps[k - 1]);
    }
  }

  lemma JoinLeavesTheFlags(s: State, step: Step)
    requires Control(s) && s.mutex.StartJoining? && Enabled(s, step) && !step.StartJoined?
    ensures Next(s, step).mutex == s.mutex && Next(s, step).flags == s.flags
  {
    hide SetStatus, WorkerOk, WorkerNext, EventStep, StartStep, StopStep, Spawn;
    if step.WorkerStep? {
      WorkerLeavesTheFlags(s, step.id, step.input);
    }
  }

  lemma WorkerLeavesTheFlags(s: State, id: nat, in_: WorkerInput)
    requires id in s.threads.live && WorkerEnabled(s, s.threads.live[id])
    ensures WorkerNext(s, id, in_).mutex == s.mutex && WorkerNext(s, id, in_).flags == s.flags
  {
    hide SetStatus;
  }

  /** A stop is accepted exactly while the status is STARTED. It takes the flag of at most one task, only if that task
      could be killed: of the tasks whose flag is true the first in the order RFC, SWUPDATE, LOGUPLOAD. */
  lemma StopTakesTheFirst(s: State, killed: bool, disarmed: bool)
    requires s.mutex == Free
    ensures var r := StopStep(s, killed, disarmed);
      && (r.mutex == StopJoining <==> s.notify == Started)
      && (s.notify != Started ==> r == s)
      && (s.notify == Started ==>
            && r.abort && r.signals.woken && r.status == s.status && r.threads == s.threads && r.notify == Started
            && (RFC in r.inFlight <==> RFC in s.inFlight && !killed)
            && (SWUPDATE in r.inFlight <==> SWUPDATE in s.inFlight && !(killed && RFC !in s.inFlight))
            && (LOGUPLOAD in r.inFlight <==>
                  LOGUPLOAD in s.inFlight && !(killed && RFC !in s.inFlight && SWUPDATE !in s.inFlight))
            && (disarmed && s.timer.created ==> !r.timer.armed))
  {}

  /** A signal of the timer is acted upon exactly if the flag of the current task is true. That task is then complete,
      no more successful than before, its flag is false and the worker is notified; nothing else changes. */
  lemma TimeoutCompletesIff(s: State)
    requires s.timer.alarm
    ensures var r := AlarmStep(s);
      && !r.timer.alarm
      && (s.current.Some? && s.current.value in s.inFlight ==>
            var t := s.current.value;
            && Completed(r.status, t) && t !in r.inFlight && r.signals.woken
            && r.inFlight + {t} == s.inFlight
            && (forall u: Task :: u != t ==> (Completed(r.status, u) <==> Completed(s.status, u)))
            && (forall u: Task :: Succeeded(r.status, u) <==> Succeeded(s.status, u)))
      && (s.current.None? || s.current.value !in s.inFlight ==> r == s.(timer := s.timer.(alarm := false)))
      && r.threads == s.threads && r.notify == s.notify && r.mutex == s.mutex
  {
    hide SetStatus, Completed, Succeeded;
    if s.current.Some? {
      forall u: Task { SetComplete(s.status, s.current.value, u); }
    }
  }

  /** An event is heard exactly while the status is STARTED and no stop is under way. */
  predicate Heard(s: State) { s.notify == Started && !s.abort }

  // ---- The verdict reaches the status ----

  lemma JoinLeavesTheVerdict(s: State, step: Step)
    requires Control(s) && s.mutex.HandlerJoining? && Enabled(s, step) && step != HandlerJoined
    ensures Next(s, step).mutex == s.mutex
  {
    hide SetStatus, WorkerOk, WorkerNext, EventStep, StartStep, StopStep, Spawn;
    if step.WorkerStep? {
      WorkerLeavesTheFlags(s, step.id, step.input);
    }
  }

  predicate EveryJobSucceeded(v: bv16) { Succeeded(v, RFC) && Succeeded(v, SWUPDATE) && Succeeded(v, LOGUPLOAD) }

  /** However long the handler waits for its join, and whatever happens meanwhile, what it broadcasts is the verdict
      drawn from the status word when the last job had completed: COMPLETE exactly if every job had succeeded then, and
      otherwise ERROR. */
  lemma {:induction false} VerdictIsBroadcast(states: seq<State>, steps: seq<Step>, j: nat, k: nat)
    requires IsRun(states, steps) && j < k < |states| && steps[j].Event?
    requires states[j + 1].mutex.HandlerJoining?
    requires forall i :: j < i < k ==> steps[i] != HandlerJoined
    ensures states[k].mutex == states[j + 1].mutex
    ensures k < |steps| && steps[k] == HandlerJoined ==>
      && states[k + 1].mutex == Free && LastBroadcastIs(Told(states, k + 1), states[k + 1].notify)
      && (states[k + 1].notify == Complete <==> EveryJobSucceeded(states[j + 1].status))
      && (states[k + 1].notify == Error <==> !EveryJobSucceeded(states[j + 1].status))
  {
    hide Inv, EventStep, EveryJobSucceeded, LastBroadcastIs;
    if k > j + 1 {
      VerdictIsBroadcast(states, steps, j, k - 1);
      RunKeeps(states, steps, k - 1);
      JoinLeavesTheVerdict(states[k - 1], steps[k - 1]);
    }
    if k < |steps| && steps[k] == HandlerJoined {
      RunKeeps(states, steps, j);
      VerdictIsDrawn(states[j], steps[j].event);
      RunKeeps(states, steps, k + 1);
      ReportedStatusWasBroadcast(states, steps, k + 1);
    }
  }

  lemma VerdictIsDrawn(s: State, e: ModuleEvent)
    requires Inv(s) && s.mutex == Free && EventStep(s, e).mutex.HandlerJoining?
    ensures var r := EventStep(s, e);
      && r.mutex.verdict in {Complete, Error}
      && (r.mutex.verdict == Complete <==> EveryJobSucceeded(r.status))
  {
    EventKeeps(s, e);
    var v := EventStep(s, e).status;
    VerdictIsNeverIncomplete(v);
    assert EveryJobSucceeded(v) <==> forall t: Task :: Succeeded(v, t);
    hide ApplyEvent, Verdict;
  }

  /** A completion time is recorded exactly when the verdict is COMPLETE. */
  lemma VerdictRecordsTheTimeIff(s: State, e: ModuleEvent)
    requires s.mutex == Free
    ensures var r := EventStep(s, e);
      r.mutex == HandlerJoining(Complete) <==> Heard(s) && Verdict(ApplyEvent(s, e).status) == Some(Complete)
    ensures var r := EventStep(s, e);
      Heard(s) ==>
        var log := ApplyEvent(s, e).log;
        r.log == if r.mutex == HandlerJoining(Complete) then Then(log, TimeRecorded) else log
  {
    hide SetStatus, Verdict;
    AppliedLeavesTheEnd(s, e);
    assert ApplyEvent(s, e).mutex == s.mutex;
    hide ApplyEvent;
  }

  /** The worker is notified by exactly the events that complete a job: success and error events that find the flag of
      their task true, and an aborted firmware download. */
  lemma EventNotifiesIff(s: State, e: ModuleEvent)
    requires s.mutex == Free
    ensures var r := EventStep(s, e);
      r.signals.woken <==>
        || s.signals.woken
        || (Heard(s) && (e == FirmwareAborted || exists t :: t in s.inFlight && (e == Done(t) || e == Failed(t))))
  {
    hide Verdict, ApplyEvent;
    AppliedNotifiesIff(s, e);
  }

  lemma AppliedNotifiesIff(s: State, e: ModuleEvent)
    ensures ApplyEvent(s, e).signals.woken <==>
      || s.signals.woken || e == FirmwareAborted
      || exists t :: t in s.inFlight && (e == Done(t) || e == Failed(t))
  {
    hide SetStatus;
  }

  /** The two flags of a cycle, and the reboot bit of the status word, are raised by exactly one event each, and lowered
      by none. */
  lemma EventRaisesFlagsIff(s: State, e: ModuleEvent)
    requires s.mutex == Free
    ensures var r := EventStep(s, e);
      && (r.flags.critical <==> s.flags.critical || (Heard(s) && e == CriticalUpdate))
      && (r.flags.rebootPending <==> s.flags.rebootPending || (Heard(s) && e == RebootRequired))
      && (CheckStatus(r.status, REBOOT_REQUIRED) <==>
            CheckStatus(s.status, REBOOT_REQUIRED) || (Heard(s) && e == RebootRequired))
      && (!Heard(s) ==> r == s)
  {
    hide Verdict, ApplyEvent, CheckStatus;
    AppliedRaisesFlagsIff(s, e);
    RebootBitIff(s, e);
  }

  lemma AppliedRaisesFlagsIff(s: State, e: ModuleEvent)
    ensures var r := ApplyEvent(s, e);
      && (r.flags.critical <==> s.flags.critical || e == CriticalUpdate)
      && (r.flags.rebootPending <==> s.flags.rebootPending || e == RebootRequired)
  {
    hide SetStatus;
  }

  lemma RebootBitIff(s: State, e: ModuleEvent)
    ensures CheckStatus(ApplyEvent(s, e).status, REBOOT_REQUIRED) <==>
      CheckStatus(s.status, REBOOT_REQUIRED) || e == RebootRequired
  {
    hide SetStatus, CheckStatus;
    match e
    case Done(t) =>
      TaskLeavesReboot(s.status, t);
      TaskLeavesReboot(SetStatus(s.status, SuccessBit(t)), t);
    case Failed(t) => TaskLeavesReboot(s.status, t);
    case FirmwareAborted =>
      SkipLeavesReboot(s.status);
      TaskLeavesReboot(SetStatus(s.status, TASK_SKIPPED), SWUPDATE);
    case RebootRequired => SetSame(s.status, REBOOT_REQUIRED);
    case _ =>
  }

  lemma TaskLeavesReboot(v: bv16, t: Task)
    ensures CheckStatus(SetStatus(v, SuccessBit(t)), REBOOT_REQUIRED) <==> CheckStatus(v, REBOOT_REQUIRED)
    ensures CheckStatus(SetStatus(v, CompleteBit(t)), REBOOT_REQUIRED) <==> CheckStatus(v, REBOOT_REQUIRED)
  {
    SetOther(v, SuccessBit(t), REBOOT_REQUIRED);
    SetOther(v, CompleteBit(t), REBOOT_REQUIRED);
  }

  lemma SkipLeavesReboot(v: bv16)
    ensures CheckStatus(SetStatus(v, TASK_SKIPPED), REBOOT_REQUIRED) <==> CheckStatus(v, REBOOT_REQUIRED)
  {
    SetOther(v, TASK_SKIPPED, REBOOT_REQUIRED);
  }
}

/** The maintenance manager object. Each method is one atomic section of the program, written with its assignments;
    its contract says that the object moves by exactly the step of `MaintenanceCycle` of that name. */
module MaintenanceManager {
  import opened Wrappers
  import opened TaskStatus
  import opened MaintenanceHistory
  import opened MaintenanceCycle
  import opened MaintenanceSafety

  class Manager {
    const cfg: Config
    var boot: BootPc
    var mutex: Mutex
    var notify: Status
    var status: bv16
    var inFlight: set<Task>
    var abort: bool
    var unsolicitedComplete: bool
    var kind: Kind
    var current: Option<Task>
    var listenContext: bool
    var woken: bool
    var timer: Timer
    var critical: bool
    var rebootPending: bool
    var threads: Threads
    ghost var history: History

    ghost function View(): State
      reads this
    {
      State(cfg, boot, mutex, notify, status, inFlight, abort, unsolicitedComplete, kind, current,
            Signals(listenContext, woken), timer, Flags(critical, rebootPending), threads, history)
    }

    constructor (cfg: Config, kind: Kind)
      ensures Init(View()) && Inv(View()) && this.cfg == cfg
    {
      this.cfg, this.kind := cfg, kind;
      boot, mutex, notify, status, inFlight := AtReset, Free, Idle, 0, {};
      abort, unsolicitedComplete, current, listenContext, woken := false, false, None, false, false;
      timer, critical, rebootPending := Timer(false, false, false), false, false;
      threads, history := Threads(None, map[], 0, false), Start;
      new;
      InitInv(View());
    }

    // ---- Shared pieces ----

    /** onMaintenanceStatusChange */
    method OnMaintenanceStatusChange(st: Status, ghost origin: Source)
      modifies this`notify, this`history
      ensures View() == Publish(old(View()), st, origin)
    {
      notify := st;
      history := Then(history, Broadcast(st, origin, |threads.live|));
    }

    /** m_thread = std::thread(...) */
    method SpawnWorker()
      modifies this`threads, this`history
      ensures View() == Spawn(old(View()))
    {
      history := Then(history, Spawned(kind, |threads.live|));
      if threads.handle.Some? {
        threads := threads.(terminated := true);
      } else {
        var id := threads.nextId;
        threads := threads.(handle := Some(id), live := threads.live[id := NEW_WORKER], nextId := id + 1);
      }
    }

    /** task_startTimer, with maintenance_initTimer; the flags say whether timer_create and timer_settime succeed. */
    method TaskStartTimer(created: bool, timerSet: bool) returns (started: bool)
      modifies this`timer
      ensures (timer, started) == StartTimer(old(timer), created, timerSet)
      ensures started <==> (old(timer.created) || created) && timerSet
      ensures if started then timer.armed && timer.created else timer.armed == old(timer.armed)
    {
      if !timer.created {
        if !created {
          return false;
        }
        timer := timer.(created := true);
      }
      if !timerSet {
        return false;
      }
      timer := timer.(armed := true);
      return true;
    }

    /** task_stopTimer */
    method TaskStopTimer(disarmed: bool)
      modifies this`timer
      ensures timer == StopTimer(old(timer), disarmed)
    {
      if timer.created && disarmed {
        timer := timer.(armed := false);
      }
    }

    method SetWorker(id: nat, w: Worker)
      modifies this`threads
      ensures threads == old(threads).(live := old(threads).live[id := w])
    {
      threads := threads.(live := threads.live[id := w]);
    }

    /** task_thread.notify_one() */
    method NotifyOne()
      modifies this`woken
      ensures woken
    {
      woken := true;
    }

    method EndUnsolicited()
      modifies this`unsolicitedComplete
      ensures View() == CompleteUnsolicited(old(View()))
    {
      if kind == UnsolicitedMaintenance && !unsolicitedComplete {
        unsolicitedComplete := true;
      }
    }

    // ---- maintenanceManagerOnBootup ----

    method OnBootupReset()
      requires Inv(View()) && boot == AtReset
      modifies this
      ensures View() == BootResetStep(old(View()))
      ensures Inv(View())
    {
      hide Inv;
      BootResetKeeps(View());
      notify := Idle;
      kind := UnsolicitedMaintenance;
      ResetCycle();
      boot := AtIdle;
    }

    method ResetCycle()
      modifies this`critical, this`rebootPending, this`status, this`abort, this`unsolicitedComplete, this`history
      ensures !critical && !rebootPending && status == 0 && !abort && !unsolicitedComplete
      ensures history == Then(old(history), Reset)
    {
      critical := false;
      rebootPending := false;
      status := 0;
      abort := false;
      unsolicitedComplete := false;
      history := Then(history, Reset);
    }

    method OnBootupIdle()
      requires Inv(View()) && Enabled(View(), BootIdle)
      modifies this
      ensures View() == Next(old(View()), BootIdle)
      ensures Inv(View())
    {
      hide Inv;
      BootIdleKeeps(View());
      OnMaintenanceStatusChange(notify, ByBoot);
      boot := AtSpawn;
    }

    method OnBootupSpawn(spawned: bool)
      requires Inv(View()) && Enabled(View(), BootSpawn(spawned))
      modifies this
      ensures View() == BootSpawnStep(old(View()), spawned)
      ensures Inv(View())
    {
      hide Inv;
      BootSpawnKeeps(View(), spawned);
      if spawned {
        SpawnWorker();
        boot := BootDone;
      } else {
        boot := AtFail;
      }
    }

    method OnBootupFail()
      requires Inv(View()) && Enabled(View(), BootFail)
      modifies this
      ensures View() == BootFailStep(old(View()))
      ensures Inv(View())
    {
      hide Inv;
      BootFailKeeps(View());
      unsolicitedComplete := true;
      OnMaintenanceStatusChange(Error, ByBoot);
      boot := BootDone;
    }

    // ---- task_execution_thread, one statement group at a time ----

    method WorkerEnter(id: nat)
      requires Inv(View()) && id in threads.live && threads.live[id].pc == Enter
      modifies this`threads
      ensures View() == Put(EnterStep(old(View()), old(threads.live[id])), id)
      ensures Inv(View())
    {
      hide Inv;
      EnterKeeps(View(), id);
      var delay := kind == UnsolicitedMaintenance && cfg.whoAmI;
      SetWorker(id, threads.live[id].(delay := delay, pc := if delay then Probing else Announce));
    }

    method WorkerAnnounce(id: nat)
      requires Inv(View()) && id in threads.live && NeedsMutex(threads.live[id].pc) && mutex == Free
      modifies this
      ensures View() == Put(AnnounceStep(old(View()), old(threads.live[id])), id)
      ensures Inv(View())
    {
      hide Inv;
      AnnounceKeeps(View(), id);
      var pc := threads.live[id].pc;
      if pc == NoNetwork {
        OnMaintenanceStatusChange(Error, ByWorker);
        SetWorker(id, threads.live[id].(pc := NoNetworkTail));
      } else {
        OnMaintenanceStatusChange(Started, ByWorker);
        SetWorker(id, threads.live[id].(pc := if pc == Announce then Probing else Plan));
      }
    }

    /** The activation, network and WhoAmI checks, and where they lead. */
    method Checks(w: Worker, p: Probe) returns (next: Worker)
      modifies this`listenContext
      ensures (View(), next) == ProbeStep(old(View()), w, p)
    {
      var online := false;
      var skipFirmware := false;
      var exitOnNoNetwork := false;
      var wait := false;
      if !cfg.whoAmI && cfg.suppress {
        var (proceed, skip) := ActivatedStatus(p.activation);
        skipFirmware := skip;
        if proceed {
          online := p.online;
        }
      } else {
        online := p.online;
      }
      if cfg.whoAmI {
        if kind == UnsolicitedMaintenance {
          if !p.knowsWhoAmI && p.activation != Activated {
            listenContext := true;
            wait := true;
          } else if !online && p.activation == Activated {
            exitOnNoNetwork := true;
          }
        } else if !online {
          exitOnNoNetwork := true;
        }
      } else if !online {
        exitOnNoNetwork := true;
      }
      var pc := if wait then AwaitContext else if exitOnNoNetwork then NoNetwork
                else if w.delay then LateAnnounce else Plan;
      next := w.(skipFirmware := skipFirmware, activation := p.activation, pc := pc);
    }

    method WorkerProbe(id: nat, p: Probe)
      requires Inv(View()) && id in threads.live && threads.live[id].pc == Probing
      modifies this`threads, this`listenContext
      ensures View() == Put(ProbeStep(old(View()), old(threads.live[id]), p), id)
      ensures Inv(View())
    {
      hide Inv, ProbeStep;
      ProbeKeeps(View(), id, p);
      var next := Checks(threads.live[id], p);
      SetWorker(id, next);
    }

    method WorkerAwaitContext(id: nat)
      requires Inv(View()) && id in threads.live && threads.live[id].pc == AwaitContext && !listenContext
      modifies this`threads
      ensures View() == Put(AwaitStep(old(View()), old(threads.live[id])), id)
      ensures Inv(View())
    {
      hide Inv;
      AwaitKeeps(View(), id);
      SetWorker(id, threads.live[id].(pc := if threads.live[id].delay then LateAnnounce else Plan));
    }

    method WorkerPlan(id: nat)
      requires Inv(View()) && id in threads.live && threads.live[id].pc == Plan
      modifies this`threads, this`status, this`history
      ensures View() == Put(PlanStep(old(View()), old(threads.live[id])), id)
      ensures Inv(View())
    {
      hide Inv;
      PlanKeeps(View(), id);
      var tasks := [];
      if threads.live[id].skipFirmware {
        status := SetStatus(status, SuccessBit(SWUPDATE));
        status := SetStatus(status, CompleteBit(SWUPDATE));
        history := Then(history, FirmwareSkipped(cfg, threads.live[id].activation));
        tasks := tasks + [RFC];
        tasks := tasks + [LOGUPLOAD];
        assert tasks == [RFC, LOGUPLOAD];
      } else {
        tasks := tasks + [RFC];
        tasks := tasks + [SWUPDATE];
        tasks := tasks + [LOGUPLOAD];
        assert tasks == [RFC, SWUPDATE, LOGUPLOAD];
      }
      SetWorker(id, threads.live[id].(tasks := tasks, i := 0, pc := LoopTest));
    }

    /** The test of the loop. */
    method TestLoop(w: Worker) returns (next: Worker)
      ensures (View(), next) == TestStep(View(), w)
    {
      next := w.(pc := if w.i < |w.tasks| && !abort then Body else Finish);
    }

    method WorkerTest(id: nat)
      requires Inv(View()) && id in threads.live && threads.live[id].pc == LoopTest
      modifies this`threads
      ensures View() == Put(TestStep(old(View()), old(threads.live[id])), id)
      ensures Inv(View())
    {
      hide Inv, TestStep;
      TestKeeps(View(), id);
      var next := TestLoop(threads.live[id]);
      SetWorker(id, next);
    }

    /** The start of an attempt: the timer is started before a first launch only. */
    method Attempt(w: Worker, in_: WorkerInput) returns (next: Worker)
      requires w.i < |w.tasks|
      modifies this`current, this`timer
      ensures (View(), next) == BodyStep(old(View()), w, in_)
    {
      current := Some(w.tasks[w.i]);
      if abort {
        next := NextTask(w);
      } else if w.retry == TASK_RETRY_COUNT {
        var started := TaskStartTimer(in_.created, in_.timerSet);
        next := w.(timerOn := started, pc := if started then Launch else LaunchFailure);
      } else {
        next := w.(pc := if w.timerOn then Launch else LaunchFailure);
      }
    }

    method WorkerBody(id: nat, in_: WorkerInput)
      requires Inv(View()) && id in threads.live && threads.live[id].pc == Body
      requires threads.live[id].i < |threads.live[id].tasks|
      modifies this`threads, this`current, this`timer
      ensures View() == Put(BodyStep(old(View()), old(threads.live[id]), in_), id)
      ensures Inv(View())
    {
      hide Inv, BodyStep;
      BodyKeeps(View(), id, in_);
      var next := Attempt(threads.live[id], in_);
      SetWorker(id, next);
    }

    method WorkerLaunch(id: nat)
      requires Inv(View()) && id in threads.live && threads.live[id].pc == Launch
      requires threads.live[id].i < |threads.live[id].tasks|
      modifies this`threads, this`inFlight
      ensures View() == Put(LaunchStep(old(View()), old(threads.live[id])), id)
      ensures Inv(View())
    {
      hide Inv;
      LaunchKeeps(View(), id);
      inFlight := inFlight + {threads.live[id].tasks[threads.live[id].i]};
      SetWorker(id, threads.live[id].(pc := Launching));
    }

    /** system() returns; after a success the wait begins, and no earlier notification counts. */
    method AfterLaunch(w: Worker, launched: bool) returns (next: Worker)
      modifies this`woken
      ensures (View(), next) == LaunchedStep(old(View()), w, launched)
    {
      if launched {
        woken := false;
      }
      next := w.(pc := if launched then Waiting else LaunchFailure);
    }

    method WorkerLaunched(id: nat, launched: bool)
      requires Inv(View()) && id in threads.live && threads.live[id].pc == Launching
      modifies this`threads, this`woken
      ensures View() == Put(LaunchedStep(old(View()), old(threads.live[id]), launched), id)
      ensures Inv(View())
    {
      hide Inv, LaunchedStep;
      LaunchedKeeps(View(), id, launched);
      var next := AfterLaunch(threads.live[id], launched);
      SetWorker(id, next);
    }

    /** A failed launch: another attempt, or "Setting task as Error" and the end of the timer. */
    method FailLaunch(w: Worker, disarmed: bool) returns (next: Worker)
      requires w.i < |w.tasks|
      modifies this`inFlight, this`status, this`history, this`timer
      ensures (View(), next) == LaunchFailureStep(old(View()), w, disarmed)
    {
      var t := w.tasks[w.i];
      inFlight := inFlight - {t};
      if w.retry > 0 && w.timerOn {
        next := w.(retry := w.retry - 1, pc := LoopTest);
      } else {
        status := SetStatus(status, CompleteBit(t));
        history := Then(history, LaunchFailed(t));
        TaskStopTimer(disarmed);
        next := NextTask(w);
      }
    }

    method WorkerLaunchFailure(id: nat, disarmed: bool)
      requires Inv(View()) && id in threads.live && threads.live[id].pc == LaunchFailure
      requires threads.live[id].i < |threads.live[id].tasks|
      modifies this`threads, this`inFlight, this`status, this`history, this`timer
      ensures View() == Put(LaunchFailureStep(old(View()), old(threads.live[id]), disarmed), id)
      ensures Inv(View())
    {
      hide Inv, LaunchFailureStep;
      FailureKeeps(View(), id, disarmed);
      var next := FailLaunch(threads.live[id], disarmed);
      SetWorker(id, next);
    }

    method WorkerWake(id: nat, disarmed: bool)
      requires Inv(View()) && id in threads.live && threads.live[id].pc == Waiting && woken
      requires threads.live[id].i < |threads.live[id].tasks|
      modifies this`threads, this`timer
      ensures View() == Put(WakeStep(old(View()), old(threads.live[id]), disarmed), id)
      ensures Inv(View())
    {
      hide Inv;
      WakeKeeps(View(), id, disarmed);
      TaskStopTimer(disarmed);
      SetWorker(id, NextTask(threads.live[id]));
    }

    /** The no-network exit, or the end of the loop. */
    method Leave(pc: Pc, disarmed: bool)
      modifies this`unsolicitedComplete, this`abort, this`timer
      ensures View() == if pc == NoNetworkTail then OfflineReturn(old(View())) else FinishReturn(old(View()), disarmed)
    {
      if pc == NoNetworkTail {
        EndUnsolicited();
      } else if abort {
        abort := false;
        TaskStopTimer(disarmed);
      }
    }

    method WorkerReturns(id: nat, disarmed: bool)
      requires Inv(View()) && id in threads.live && Ends(threads.live[id].pc)
      modifies this
      ensures View() == Remove(if old(threads.live[id]).pc == NoNetworkTail then OfflineReturn(old(View()))
                               else FinishReturn(old(View()), disarmed), id)
      ensures Inv(View())
    {
      hide Inv, OfflineReturn, FinishReturn;
      ReturnKeeps(View(), id, disarmed);
      Leave(threads.live[id].pc, disarmed);
      threads := threads.(live := threads.live - {id});
    }

    // ---- iarmEventHandler ----

    method AcceptSuccess(t: Task)
      modifies this`status, this`inFlight, this`history, this`woken
      ensures status == SetStatus(SetStatus(old(status), SuccessBit(t)), CompleteBit(t)) && woken
      ensures inFlight == old(inFlight) - {t} && history == Then(old(history), Accepted(t, t in old(inFlight)))
    {
      status := SetStatus(status, SuccessBit(t));
      status := SetStatus(status, CompleteBit(t));
      NotifyOne();
      history := Then(history, Accepted(t, t in inFlight));
      inFlight := inFlight - {t};
    }

    method AcceptFailure(t: Task)
      modifies this`status, this`inFlight, this`woken
      ensures status == SetStatus(old(status), CompleteBit(t)) && inFlight == old(inFlight) + {t} && woken
    {
      status := SetStatus(status, CompleteBit(t));
      NotifyOne();
      inFlight := inFlight + {t};
    }

    method AbortFirmware()
      modifies this`status, this`inFlight, this`woken
      ensures status == SetStatus(SetStatus(old(status), TASK_SKIPPED), CompleteBit(SWUPDATE)) && woken
      ensures inFlight == old(inFlight) - {SWUPDATE}
    {
      status := SetStatus(status, TASK_SKIPPED);
      status := SetStatus(status, CompleteBit(SWUPDATE));
      NotifyOne();
      inFlight := inFlight - {SWUPDATE};
    }

    method ApplyModuleEvent(e: ModuleEvent)
      modifies this`status, this`inFlight, this`woken, this`history, this`rebootPending, this`critical
      ensures View() == ApplyEvent(old(View()), e)
    {
      hide SetStatus, SuccessBit, CompleteBit;
      match e {
        case Done(t) =>
          if t in inFlight {
            AcceptSuccess(t);
          }
        case Failed(t) =>
          if t in inFlight {
            AcceptFailure(t);
          }
        case InProgress(t) =>
          inFlight := inFlight + {t};
        case FirmwareAborted =>
          AbortFirmware();
        case RebootRequired =>
          status := SetStatus(status, REBOOT_REQUIRED);
          rebootPending := true;
        case CriticalUpdate =>
          critical := true;
        case Other =>
      }
    }

    method IarmEvent(e: ModuleEvent)
      requires Inv(View()) && mutex == Free
      modifies this
      ensures View() == EventStep(old(View()), e)
      ensures Inv(View())
    {
      hide Inv;
      EventKeeps(View(), e);
      if abort || notify != Started {
        return;
      }
      ApplyModuleEvent(e);
      if status & TASKS_COMPLETED == TASKS_COMPLETED {
        var verdict := Error;
        if status & ALL_TASKS_SUCCESS == ALL_TASKS_SUCCESS {
          verdict := Complete;
          history := Then(history, TimeRecorded);
        } else if status & MAINTENANCE_TASK_SKIPPED == MAINTENANCE_TASK_SKIPPED {
          verdict := Incomplete;
        }
        mutex := HandlerJoining(verdict);
      }
    }

    method IarmEventJoined()
      requires Inv(View()) && Enabled(View(), HandlerJoined)
      modifies this
      ensures View() == HandlerJoinedStep(old(View()))
      ensures Inv(View())
    {
      hide Inv;
      StepKeeps(View(), HandlerJoined);
      threads := threads.(handle := None);
      EndUnsolicited();
      OnMaintenanceStatusChange(mutex.verdict, ByHandler);
      mutex := Free;
    }

    // ---- startMaintenance, stopMaintenanceTasks ----

    method StartMaintenance()
      requires Inv(View()) && mutex == Free
      modifies this
      ensures View() == StartStep(old(View()))
      ensures Inv(View())
    {
      hide Inv;
      StartKeeps(View());
      if notify != Started && unsolicitedComplete {
        status := 0;
        history := Then(history, Reset);
        kind := SolicitedMaintenance;
        abort := false;
        rebootPending := true;
        mutex := StartJoining(critical);
        critical := false;
      }
    }

    method StartMaintenanceJoined(spawned: bool) returns (result: bool)
      requires Inv(View()) && Enabled(View(), StartJoined(spawned))
      modifies this
      ensures View() == StartJoinedStep(old(View()), spawned) && result == spawned
      ensures Inv(View())
    {
      hide Inv;
      StepKeeps(View(), StartJoined(spawned));
      threads := threads.(handle := None);
      if spawned {
        SpawnWorker();
      } else {
        critical := mutex.prevCritical;
      }
      mutex := Free;
      return spawned;
    }

    /** The loop over the three names, which ends at the first flag that is true. */
    method FindInFlight() returns (victim: Option<Task>)
      ensures victim == FirstInFlight(inFlight)
      ensures victim.None? <==> RFC !in inFlight && SWUPDATE !in inFlight && LOGUPLOAD !in inFlight
      ensures victim.Some? ==> victim.value in inFlight
      ensures victim == Some(SWUPDATE) ==> RFC !in inFlight
      ensures victim == Some(LOGUPLOAD) ==> RFC !in inFlight && SWUPDATE !in inFlight
    {
      var order := [RFC, SWUPDATE, LOGUPLOAD];
      var i := 0;
      while i < 3 && order[i] !in inFlight
        invariant 0 <= i <= 3 && forall j :: 0 <= j < i ==> order[j] !in inFlight
      {
        i := i + 1;
      }
      assert order[0] == RFC && order[1] == SWUPDATE && order[2] == LOGUPLOAD;
      victim := if i < 3 then Some(order[i]) else None;
    }

    method StopMaintenance(killed: bool, disarmed: bool) returns (result: bool)
      requires Inv(View()) && mutex == Free
      modifies this
      ensures View() == StopStep(old(View()), killed, disarmed)
      ensures result == (old(notify) == Started)
      ensures Inv(View())
    {
      hide Inv;
      StopKeeps(View(), killed, disarmed);
      if notify != Started {
        return false;
      }
      abort := true;
      var victim := FindInFlight();
      if victim.Some? && killed {
        inFlight := inFlight - {victim.value};
      }
      TaskStopTimer(disarmed);
      NotifyOne();
      mutex := StopJoining;
      return true;
    }

    method StopMaintenanceJoined()
      requires Inv(View()) && Enabled(View(), StopJoined)
      modifies this
      ensures View() == StopJoinedStep(old(View()))
      ensures Inv(View())
    {
      hide Inv;
      StepKeeps(View(), StopJoined);
      threads := threads.(handle := None);
      EndUnsolicited();
      OnMaintenanceStatusChange(Error, ByStop);
      mutex := Free;
    }

    // ---- Signals and notifications ----

    method Expire()
      modifies this`timer, this`inFlight, this`status, this`history, this`woken
      ensures View() == AlarmStep(old(View()))
    {
      hide SetStatus, CompleteBit;
      timer := timer.(alarm := false);
      if current.Some? && current.value in inFlight {
        inFlight := inFlight - {current.value};
        status := SetStatus(status, CompleteBit(current.value));
        NotifyOne();
        history := Then(history, TimedOut(current.value));
      }
    }

    /** A SIGALRM is delivered. */
    method TimerHandler()
      requires Inv(View()) && timer.alarm
      modifies this
      ensures View() == AlarmStep(old(View()))
      ensures Inv(View())
    {
      hide Inv, AlarmStep;
      StepKeeps(View(), AlarmDelivered);
      Expire();
    }

    method OnDeviceContext(isSet: bool)
      requires Inv(View())
      modifies this`listenContext, this`woken
      ensures View() == ContextStep(old(View()), isSet)
      ensures Inv(View())
    {
      hide Inv;
      StepKeeps(View(), ContextUpdate(isSet));
      if listenContext && kind == UnsolicitedMaintenance && isSet {
        listenContext := false;
        NotifyOne();
      }
    }
  }
}

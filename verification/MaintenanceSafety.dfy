/** What every step of the maintenance cycle keeps. */
module MaintenanceSafety {
  import opened Wrappers
  import opened TaskStatus
  import opened MaintenanceHistory
  import opened MaintenanceCycle

  // ---- The invariant: who is where ----

  predicate BeforeProbe(pc: Pc) { pc == Enter || pc == Announce }

  predicate InLoop(pc: Pc) { pc == Plan || pc == LoopTest || OnTask(pc) || pc == Finish }

  /** This boot's first cycle on a device with WhoAmI support, which announces STARTED late. */
  predicate LateCycle(s: State) { s.cfg.whoAmI && s.kind == UnsolicitedMaintenance }

  /** What a live worker knows from where it stands. */
  predicate WorkerOk(s: State, w: Worker) {
    && (w.pc != NoNetworkTail && s.kind == UnsolicitedMaintenance ==> !s.unsolicitedComplete)
    && (OnTask(w.pc) ==> w.i < |w.tasks|)
    && (w.skipFirmware ==> SkipsFirmware(s.cfg, w.activation))
    && (if w.pc == NoNetworkTail then s.notify == Error
        else if InLoop(w.pc) then s.notify == Started
        else if BeforeProbe(w.pc) then
          && s.notify != Started
          && (s.kind == UnsolicitedMaintenance ==> s.notify == Idle)
          && (w.pc == Announce ==> !LateCycle(s) && !w.delay)
        else
          && w.delay == LateCycle(s)
          && s.notify == (if w.delay then Idle else Started)
          && (w.pc == LateAnnounce || w.pc == AwaitContext ==> w.delay))
  }

  ghost predicate ThreadsOk(ts: Threads) {
    && !ts.terminated
    && (forall id :: id in ts.live ==> ts.handle == Some(id))
    && (ts.handle.Some? ==> ts.handle.value < ts.nextId)
  }

  predicate MutexOk(s: State) {
    match s.mutex
    case Free => true
    case HandlerJoining(v) => s.notify == Started && (v == Error || v == Complete)
    case StartJoining(_) => s.notify != Started && s.unsolicitedComplete && s.kind == SolicitedMaintenance
    case StopJoining => s.notify == Started
  }

  predicate BootOk(s: State) {
    && (s.boot != BootDone ==>
          && s.threads.live == map[] && s.threads.handle == None && s.mutex == Free
          && !s.unsolicitedComplete && s.notify == Idle)
    && (s.boot != AtReset && s.kind == SolicitedMaintenance ==> s.unsolicitedComplete)
  }

  ghost predicate Control(s: State) {
    && ThreadsOk(s.threads) && MutexOk(s) && BootOk(s)
    && (forall id :: id in s.threads.live ==> WorkerOk(s, s.threads.live[id]))
  }

  // ---- The invariant: what the history says ----

  predicate StatusOk(status: bv16, proven: set<Task>) {
    && WellFormed(status)
    && forall t: Task :: Succeeded(status, t) ==> t in proven
  }

  predicate Story(s: State) {
    var d := DigestOf(s.log);
    && GoodLog(s.log)
    && s.notify == d.last
    && (s.unsolicitedComplete || Terminal(s.notify) ==> d.anyTerminal)
    && (d.anyBroadcast <==> s.boot != AtReset && s.boot != AtIdle)
    && (s.mutex == HandlerJoining(Complete) ==> AllProven(d.proven))
    && StatusOk(s.status, d.proven)
  }

  ghost predicate Inv(s: State) { Control(s) && Story(s) }

  /** The story depends on these fields alone. */
  lemma SameStory(s: State, r: State)
    requires Story(s) && r.log == s.log && r.notify == s.notify && r.status == s.status
    requires r.unsolicitedComplete == s.unsolicitedComplete && r.boot == s.boot && r.mutex == s.mutex
    ensures Story(r)
  {}

  // ---- Threads ----

  lemma AtMostOneLive(s: State)
    requires ThreadsOk(s.threads)
    ensures |s.threads.live| <= 1
    ensures JoinReady(s) ==> s.threads.live == map[]
  {
    if s.threads.handle.None? {
      assert s.threads.live == map[];
    } else {
      var one := {s.threads.handle.value};
      assert s.threads.live.Keys <= one;
      assert one == s.threads.live.Keys + (one - s.threads.live.Keys);
    }
  }

  /** Storing a worker's new locals, once its shared step is known to be sound. */
  lemma PutKeeps(s: State, id: nat, p: (State, Worker))
    requires Control(s) && id in s.threads.live && s.boot == BootDone
    requires p.0.threads == s.threads && p.0.boot == s.boot
    requires MutexOk(p.0) && BootOk(p.0) && WorkerOk(p.0, p.1) && Story(p.0)
    ensures Inv(Put(p, id))
  {
    var r := Put(p, id);
    forall x | x in r.threads.live ensures r.threads.live[x] == p.1 && r.threads.handle == Some(x) {
      assert x in s.threads.live;
    }
  }

  lemma RemoveKeeps(s: State, id: nat, s1: State)
    requires Control(s) && id in s.threads.live && s.boot == BootDone
    requires s1.threads == s.threads && s1.boot == s.boot && MutexOk(s1) && BootOk(s1) && Story(s1)
    ensures Inv(Remove(s1, id))
  {
    assert forall x :: x in s.threads.live ==> x == id;
  }

  // ---- Worker steps ----

  lemma EnterKeeps(s: State, id: nat)
    requires Inv(s) && id in s.threads.live && s.threads.live[id].pc == Enter
    ensures Inv(Put(EnterStep(s, s.threads.live[id]), id))
  {
    PutKeeps(s, id, EnterStep(s, s.threads.live[id]));
  }

  lemma ProbeKeeps(s: State, id: nat, probe: Probe)
    requires Inv(s) && id in s.threads.live && s.threads.live[id].pc == Probing
    ensures Inv(Put(ProbeStep(s, s.threads.live[id], probe), id))
  {
    PutKeeps(s, id, ProbeStep(s, s.threads.live[id], probe));
  }

  lemma AwaitKeeps(s: State, id: nat)
    requires Inv(s) && id in s.threads.live && s.threads.live[id].pc == AwaitContext
    ensures Inv(Put(AwaitStep(s, s.threads.live[id]), id))
  {
    PutKeeps(s, id, AwaitStep(s, s.threads.live[id]));
  }

  /** A broadcast that obeys the rules keeps the story. */
  lemma PublishStory(s: State, st: Status, origin: Source)
    requires Story(s) && EntryOk(DigestOf(s.log), Broadcast(st, origin, |s.threads.live|))
    requires s.boot != AtReset && s.boot != AtIdle
    ensures Story(Publish(s, st, origin))
  {
    hide StatusOk, EntryOk;
  }

  /** What the worker announces obeys the rules. */
  lemma WorkerMayPublish(s: State, w: Worker)
    requires Story(s) && NeedsMutex(w.pc) && WorkerOk(s, w) && |s.threads.live| <= 1 && s.boot == BootDone
    ensures var st := if w.pc == NoNetwork then Error else Started;
      EntryOk(DigestOf(s.log), Broadcast(st, ByWorker, |s.threads.live|))
  {
    hide StatusOk, GoodLog;
  }

  lemma WorkerPublishes(s: State, w: Worker)
    requires Story(s) && NeedsMutex(w.pc) && WorkerOk(s, w) && |s.threads.live| <= 1 && s.boot == BootDone
    ensures Story(AnnounceStep(s, w).0)
  {
    hide Story, EntryOk, Publish, WorkerOk;
    WorkerMayPublish(s, w);
    PublishStory(s, if w.pc == NoNetwork then Error else Started, ByWorker);
  }

  lemma PublishControl(s: State, st: Status)
    requires MutexOk(s) && BootOk(s) && s.mutex == Free && s.boot == BootDone
    ensures var r := Publish(s, st, ByWorker); MutexOk(r) && BootOk(r)
  {}

  lemma AnnouncerOk(s: State, w: Worker)
    requires WorkerOk(s, w) && NeedsMutex(w.pc)
    ensures var p := AnnounceStep(s, w); WorkerOk(p.0, p.1)
  {
    hide SkipsFirmware;
    match w.pc
    case Announce =>
    case LateAnnounce =>
    case NoNetwork =>
  }

  lemma AnnounceControl(s: State, w: Worker)
    requires MutexOk(s) && BootOk(s) && WorkerOk(s, w) && NeedsMutex(w.pc) && s.mutex == Free && s.boot == BootDone
    ensures var p := AnnounceStep(s, w);
      MutexOk(p.0) && BootOk(p.0) && WorkerOk(p.0, p.1)
  {
    hide MutexOk, BootOk, WorkerOk, Publish;
    PublishControl(s, if w.pc == NoNetwork then Error else Started);
    AnnouncerOk(s, w);
  }

  lemma AnnounceKeeps(s: State, id: nat)
    requires Inv(s) && s.mutex == Free && id in s.threads.live && NeedsMutex(s.threads.live[id].pc)
    ensures Inv(Put(AnnounceStep(s, s.threads.live[id]), id))
  {
    var w := s.threads.live[id];
    AtMostOneLive(s);
    WorkerPublishes(s, w);
    AnnounceControl(s, w);
    PutKeeps(s, id, AnnounceStep(s, w));
  }

  lemma PlanStory(s: State, w: Worker)
    requires Story(s) && (w.skipFirmware ==> SkipsFirmware(s.cfg, w.activation))
    ensures Story(PlanStep(s, w).0)
  {
    hide StatusOk;
    if w.skipFirmware {
      SuccessStatus(s.status, DigestOf(s.log).proven, SWUPDATE);
    }
  }

  lemma PlanKeeps(s: State, id: nat)
    requires Inv(s) && id in s.threads.live && s.threads.live[id].pc == Plan
    ensures Inv(Put(PlanStep(s, s.threads.live[id]), id))
  {
    var w := s.threads.live[id];
    PlanStory(s, w);
    PutKeeps(s, id, PlanStep(s, w));
  }

  /** A task step that changes neither the history nor the phase of the cycle. */
  lemma TaskKeeps(s: State, id: nat, p: (State, Worker))
    requires Inv(s) && id in s.threads.live && InLoop(s.threads.live[id].pc)
    requires p.0 == s.(current := p.0.current, inFlight := p.0.inFlight, timer := p.0.timer, signals := p.0.signals)
    requires InLoop(p.1.pc) && (OnTask(p.1.pc) ==> p.1.i < |p.1.tasks|)
    requires p.1.skipFirmware == s.threads.live[id].skipFirmware && p.1.activation == s.threads.live[id].activation
    ensures Inv(Put(p, id))
  {
    assert WorkerOk(s, s.threads.live[id]);
    PutKeeps(s, id, p);
  }

  lemma CompletedStatus(v: bv16, proven: set<Task>, t: Task)
    requires StatusOk(v, proven)
    ensures StatusOk(SetStatus(v, CompleteBit(t)), proven)
    ensures StatusOk(SetStatus(SetStatus(v, TASK_SKIPPED), CompleteBit(t)), proven)
  {
    RecordComplete(v, t);
    RecordOther(v, TASK_SKIPPED);
    RecordComplete(SetStatus(v, TASK_SKIPPED), t);
  }

  lemma RebootStatus(v: bv16, proven: set<Task>)
    requires StatusOk(v, proven)
    ensures StatusOk(SetStatus(v, REBOOT_REQUIRED), proven)
  {
    RecordOther(v, REBOOT_REQUIRED);
  }

  lemma SuccessStatus(v: bv16, proven: set<Task>, t: Task)
    requires StatusOk(v, proven)
    ensures StatusOk(SetStatus(SetStatus(v, SuccessBit(t)), CompleteBit(t)), proven + {t})
  {
    RecordSuccess(v, t);
  }

  /** A task is set to complete without success: a launch failure or a timeout. */
  lemma FailureStory(s: State, t: Task, e: Entry)
    requires Story(s) && (e == LaunchFailed(t) || e == TimedOut(t))
    ensures Story(s.(status := SetStatus(s.status, CompleteBit(t)), log := Then(s.log, e)))
  {
    hide StatusOk;
    CompletedStatus(s.status, DigestOf(s.log).proven, t);
  }

  lemma GiveUpControl(s: State, w: Worker, disarmed: bool)
    requires MutexOk(s) && BootOk(s) && WorkerOk(s, w) && w.pc == LaunchFailure && w.i < |w.tasks|
    ensures var p := LaunchFailureStep(s, w, disarmed);
      && p.0.threads == s.threads && p.0.boot == s.boot
      && MutexOk(p.0) && BootOk(p.0) && WorkerOk(p.0, p.1)
  {
    hide SetStatus, SkipsFirmware;
  }

  lemma GiveUpStory(s: State, w: Worker, disarmed: bool)
    requires Story(s) && w.pc == LaunchFailure && w.i < |w.tasks|
    ensures Story(LaunchFailureStep(s, w, disarmed).0)
  {
    hide Story, SetStatus;
    var p := LaunchFailureStep(s, w, disarmed);
    var t := w.tasks[w.i];
    if w.retry > 0 && w.timerOn {
      SameStory(s, p.0);
    } else {
      FailureStory(s, t, LaunchFailed(t));
      SameStory(s.(status := SetStatus(s.status, CompleteBit(t)), log := Then(s.log, LaunchFailed(t))), p.0);
    }
  }

  lemma LaunchFailureKeeps(s: State, id: nat, disarmed: bool)
    requires Inv(s) && id in s.threads.live && s.threads.live[id].pc == LaunchFailure
    requires WorkerOk(s, s.threads.live[id])
    ensures Inv(Put(LaunchFailureStep(s, s.threads.live[id], disarmed), id))
  {
    hide Story, LaunchFailureStep;
    var w := s.threads.live[id];
    GiveUpStory(s, w, disarmed);
    GiveUpControl(s, w, disarmed);
    PutKeeps(s, id, LaunchFailureStep(s, w, disarmed));
  }

  lemma ReturnKeeps(s: State, id: nat, disarmed: bool)
    requires Inv(s) && id in s.threads.live && Ends(s.threads.live[id].pc)
    ensures s.threads.live[id].pc == NoNetworkTail ==> Inv(Remove(OfflineReturn(s), id))
    ensures s.threads.live[id].pc == Finish ==> Inv(Remove(FinishReturn(s, disarmed), id))
  {
    if s.threads.live[id].pc == NoNetworkTail {
      RemoveKeeps(s, id, OfflineReturn(s));
    } else {
      RemoveKeeps(s, id, FinishReturn(s, disarmed));
    }
  }

  lemma TestKeeps(s: State, id: nat)
    requires Inv(s) && id in s.threads.live && s.threads.live[id].pc == LoopTest
    ensures Inv(Put(TestStep(s, s.threads.live[id]), id))
  {
    hide Story;
    TaskKeeps(s, id, TestStep(s, s.threads.live[id]));
  }

  lemma TaskChosen(s: State, id: nat)
    requires Inv(s) && id in s.threads.live && OnTask(s.threads.live[id].pc)
    ensures s.threads.live[id].i < |s.threads.live[id].tasks| && WorkerOk(s, s.threads.live[id])
  {
    assert WorkerOk(s, s.threads.live[id]);
  }

  lemma BodyKeeps(s: State, id: nat, in_: WorkerInput)
    requires Inv(s) && id in s.threads.live && s.threads.live[id].pc == Body
    requires s.threads.live[id].i < |s.threads.live[id].tasks|
    ensures Inv(Put(BodyStep(s, s.threads.live[id], in_), id))
  {
    hide Story;
    TaskKeeps(s, id, BodyStep(s, s.threads.live[id], in_));
  }

  lemma LaunchKeeps(s: State, id: nat)
    requires Inv(s) && id in s.threads.live && s.threads.live[id].pc == Launch
    requires s.threads.live[id].i < |s.threads.live[id].tasks|
    ensures Inv(Put(LaunchStep(s, s.threads.live[id]), id))
  {
    hide Story;
    TaskKeeps(s, id, LaunchStep(s, s.threads.live[id]));
  }

  lemma LaunchedKeeps(s: State, id: nat, launched: bool)
    requires Inv(s) && id in s.threads.live && s.threads.live[id].pc == Launching
    ensures Inv(Put(LaunchedStep(s, s.threads.live[id], launched), id))
  {
    hide Story;
    TaskChosen(s, id);
    TaskKeeps(s, id, LaunchedStep(s, s.threads.live[id], launched));
  }

  lemma FailureKeeps(s: State, id: nat, disarmed: bool)
    requires Inv(s) && id in s.threads.live && s.threads.live[id].pc == LaunchFailure
    requires s.threads.live[id].i < |s.threads.live[id].tasks|
    ensures Inv(Put(LaunchFailureStep(s, s.threads.live[id], disarmed), id))
  {
    hide Story;
    TaskChosen(s, id);
    LaunchFailureKeeps(s, id, disarmed);
  }

  lemma WakeKeeps(s: State, id: nat, disarmed: bool)
    requires Inv(s) && id in s.threads.live && s.threads.live[id].pc == Waiting
    ensures Inv(Put(WakeStep(s, s.threads.live[id], disarmed), id))
  {
    hide Story;
    TaskKeeps(s, id, WakeStep(s, s.threads.live[id], disarmed));
  }

  lemma LoopKeeps(s: State, id: nat, in_: WorkerInput)
    requires Inv(s) && id in s.threads.live && WorkerEnabled(s, s.threads.live[id])
    requires s.threads.live[id].pc == LoopTest || OnTask(s.threads.live[id].pc)
    ensures Inv(WorkerNext(s, id, in_))
  {
    hide Inv;
    match s.threads.live[id].pc
    case LoopTest => TestKeeps(s, id);
    case Body => BodyKeeps(s, id, in_);
    case Launch => LaunchKeeps(s, id);
    case Launching => LaunchedKeeps(s, id, in_.launched);
    case LaunchFailure => FailureKeeps(s, id, in_.timerSet);
    case Waiting => WakeKeeps(s, id, in_.timerSet);
  }

  lemma WorkerKeeps(s: State, id: nat, in_: WorkerInput)
    requires Inv(s) && id in s.threads.live && WorkerEnabled(s, s.threads.live[id])
    ensures Inv(WorkerNext(s, id, in_))
  {
    hide StatusOk;
    match s.threads.live[id].pc
    case Enter => EnterKeeps(s, id);
    case Probing => ProbeKeeps(s, id, in_.probe);
    case AwaitContext => AwaitKeeps(s, id);
    case Announce | NoNetwork | LateAnnounce => AnnounceKeeps(s, id);
    case Plan => PlanKeeps(s, id);
    case NoNetworkTail | Finish => ReturnKeeps(s, id, in_.timerSet);
    case _ => LoopKeeps(s, id, in_);
  }

  // ---- Steps of the other agents ----

  lemma InitInv(s: State)
    requires Init(s)
    ensures Inv(s)
  {
    assert StatusOk(0, {});
  }

  lemma BootResetKeeps(s: State)
    requires Inv(s) && s.boot == AtReset
    ensures Inv(BootResetStep(s))
  {
    assert StatusOk(0, {});
  }

  lemma BootIdleKeeps(s: State)
    requires Inv(s) && s.boot == AtIdle
    ensures Inv(Publish(s.(boot := AtSpawn), s.notify, ByBoot))
  {
  }

  lemma BootFailKeeps(s: State)
    requires Inv(s) && s.boot == AtFail
    ensures Inv(BootFailStep(s))
  {
  }

  /** Starting a worker when there is none. */
  lemma SpawnKeeps(s: State)
    requires Inv(s) && s.threads.handle == None && s.threads.live == map[] && s.notify != Started
    requires s.kind == UnsolicitedMaintenance ==> s.notify == Idle && !s.unsolicitedComplete
    requires s.boot == BootDone && (s.kind == SolicitedMaintenance ==> s.unsolicitedComplete)
    ensures Inv(Spawn(s))
  {
    var r := Spawn(s);
    assert r.threads.live == map[s.threads.nextId := NEW_WORKER];
  }

  lemma BootSpawnKeeps(s: State, spawned: bool)
    requires Inv(s) && s.boot == AtSpawn
    ensures Inv(BootSpawnStep(s, spawned))
  {
    if spawned {
      SpawnKeeps(s.(boot := BootDone));
    }
  }

  /** Changes that leave the threads and the phase of the cycle alone. */
  lemma SamePhase(s: State, r: State)
    requires Control(s) && r.threads == s.threads && r.notify == s.notify && r.kind == s.kind && r.cfg == s.cfg
    requires r.boot == s.boot && r.unsolicitedComplete == s.unsolicitedComplete && MutexOk(r) && BootOk(r)
    ensures Control(r)
  {
    forall id | id in r.threads.live ensures WorkerOk(r, r.threads.live[id]) {
      assert WorkerOk(s, s.threads.live[id]);
    }
  }

  lemma AcceptedStory(s: State, t: Task)
    requires Story(s)
    ensures Story(s.(status := SetStatus(SetStatus(s.status, SuccessBit(t)), CompleteBit(t)),
                     log := Then(s.log, Accepted(t, true))))
  {
    hide StatusOk;
    SuccessStatus(s.status, DigestOf(s.log).proven, t);
  }

  lemma EventControl(s: State, e: ModuleEvent)
    requires Control(s)
    ensures Control(ApplyEvent(s, e))
    ensures var r := ApplyEvent(s, e); r.mutex == s.mutex && r.notify == s.notify
  {
    SamePhase(s, ApplyEvent(s, e));
  }

  lemma EventStory(s: State, e: ModuleEvent)
    requires Story(s)
    ensures Story(ApplyEvent(s, e))
  {
    hide StatusOk;
    match e
    case Done(t) => AcceptedStory(s, t);
    case Failed(t) => CompletedStatus(s.status, DigestOf(s.log).proven, t);
    case FirmwareAborted => CompletedStatus(s.status, DigestOf(s.log).proven, SWUPDATE);
    case RebootRequired => RebootStatus(s.status, DigestOf(s.log).proven);
    case _ =>
  }

  lemma VerdictKeeps(s: State, v: Status)
    requires Inv(s) && s.mutex == Free && s.notify == Started && Verdict(s.status) == Some(v)
    ensures Inv(s.(mutex := HandlerJoining(v), log := if v == Complete then Then(s.log, TimeRecorded) else s.log))
  {
    VerdictIsNeverIncomplete(s.status);
    var r := s.(mutex := HandlerJoining(v), log := if v == Complete then Then(s.log, TimeRecorded) else s.log);
    SamePhase(s, r);
    if v == Complete {
      assert Succeeded(s.status, RFC) && Succeeded(s.status, SWUPDATE) && Succeeded(s.status, LOGUPLOAD);
    }
  }

  lemma EventKeeps(s: State, e: ModuleEvent)
    requires Inv(s) && s.mutex == Free
    ensures Inv(EventStep(s, e))
  {
    if !s.abort && s.notify == Started {
      EventControl(s, e);
      EventStory(s, e);
      var s1 := ApplyEvent(s, e);
      if Verdict(s1.status).Some? {
        VerdictKeeps(s1, Verdict(s1.status).value);
      }
    }
  }

  /** A terminal broadcast by the handler or by stop, after its join. */
  lemma TerminalKeeps(s: State, v: Status, origin: Source)
    requires Inv(s) && s.notify == Started && JoinReady(s) && s.mutex != Free
    requires (s.mutex == HandlerJoining(v) && origin == ByHandler) || (v == Error && origin == ByStop)
    ensures Inv(Publish(CompleteUnsolicited(Joined(s)), v, origin).(mutex := Free))
  {
    hide StatusOk;
    AtMostOneLive(s);
  }

  lemma StartKeeps(s: State)
    requires Inv(s) && s.mutex == Free
    ensures Inv(StartStep(s))
  {
    var r := StartStep(s);
    if r != s {
      assert StatusOk(0, {});
      forall id | id in r.threads.live ensures WorkerOk(r, r.threads.live[id]) {
        assert WorkerOk(s, s.threads.live[id]);
      }
    }
  }

  lemma JoinedKeeps(s: State)
    requires Inv(s) && JoinReady(s)
    ensures Inv(Joined(s)) && Joined(s).threads.live == map[]
  {
    AtMostOneLive(s);
  }

  lemma ReleaseKeeps(s: State, flags: Flags)
    requires Inv(s)
    ensures Inv(s.(mutex := Free)) && Inv(s.(mutex := Free, flags := flags))
  {
    SamePhase(s, s.(mutex := Free));
    SamePhase(s, s.(mutex := Free, flags := flags));
  }

  lemma StartJoinedKeeps(s: State, spawned: bool)
    requires Inv(s) && s.mutex.StartJoining? && JoinReady(s)
    ensures Inv(StartJoinedStep(s, spawned))
  {
    hide StatusOk;
    JoinedKeeps(s);
    if spawned {
      SpawnKeeps(Joined(s));
      ReleaseKeeps(Spawn(Joined(s)), s.flags);
    } else {
      ReleaseKeeps(Joined(s), s.flags.(critical := s.mutex.prevCritical));
    }
  }

  lemma StopKeeps(s: State, killed: bool, disarmed: bool)
    requires Inv(s) && s.mutex == Free
    ensures Inv(StopStep(s, killed, disarmed))
  {
    SamePhase(s, StopStep(s, killed, disarmed));
  }

  lemma AlarmControl(s: State)
    requires Control(s)
    ensures Control(AlarmStep(s))
  {
    SamePhase(s, AlarmStep(s));
  }

  lemma AlarmStory(s: State)
    requires Story(s)
    ensures Story(AlarmStep(s))
  {
    hide StatusOk;
    if s.current.Some? && s.current.value in s.inFlight {
      FailureStory(s, s.current.value, TimedOut(s.current.value));
    }
  }

  /** Every enabled step keeps the invariant. */
  lemma StepKeeps(s: State, step: Step)
    requires Inv(s) && Enabled(s, step)
    ensures Inv(Next(s, step))
  {
    hide StatusOk;
    match step
    case BootReset => BootResetKeeps(s);
    case BootIdle => BootIdleKeeps(s);
    case BootFail => BootFailKeeps(s);
    case BootSpawn(spawned) => BootSpawnKeeps(s, spawned);
    case WorkerStep(id, in_) => WorkerKeeps(s, id, in_);
    case Event(e) => EventKeeps(s, e);
    case HandlerJoined => TerminalKeeps(s, s.mutex.verdict, ByHandler);
    case StartRequest => StartKeeps(s);
    case StartJoined(spawned) => StartJoinedKeeps(s, spawned);
    case StopRequest(killed, disarmed) => StopKeeps(s, killed, disarmed);
    case StopJoined => TerminalKeeps(s, Error, ByStop);
    case TimerExpires => SamePhase(s, Next(s, step));
    case AlarmDelivered => AlarmControl(s); AlarmStory(s);
    case ContextUpdate(_) => SamePhase(s, Next(s, step));
    case SpuriousWake => SamePhase(s, Next(s, step));
  }
}

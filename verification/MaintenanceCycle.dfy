/** The maintenance cycle as a step system. Every section under `m_statusMutex`, every group of worker statements
    and every signal delivery is one atomic step; a join made while holding the mutex is two steps with the mutex
    held between them, the second enabled only when the joined worker has returned. The wait of the task loop has no
    condition to re-check: a notification sent before it begins is lost, and it ends with a later one or spuriously. */
module MaintenanceCycle {
  import opened Wrappers
  import opened TaskStatus
  import opened MaintenanceHistory

  const TASK_RETRY_COUNT: nat := 1

  /** What the activation, network and WhoAmI queries answered. */
  datatype Probe = Probe(activation: Activation, online: bool, knowsWhoAmI: bool)

  datatype ModuleEvent =
    | Done(task: Task)          // MAINT_*_COMPLETE
    | Failed(task: Task)        // MAINT_*_ERROR
    | InProgress(task: Task)    // MAINT_*_INPROGRESS
    | FirmwareAborted           // MAINT_FWDOWNLOAD_ABORTED
    | RebootRequired
    | CriticalUpdate
    | Other

  datatype Pc =
    | Enter | Announce | Probing | AwaitContext | NoNetwork | NoNetworkTail | LateAnnounce | Plan
    | LoopTest | Body | Launch | Launching | LaunchFailure | Waiting | Finish

  /** A live worker thread with its locals. */
  datatype Worker = Worker(pc: Pc, delay: bool, skipFirmware: bool, activation: Activation, tasks: seq<Task>, i: nat,
                           retry: nat, timerOn: bool)

  datatype Mutex = Free | HandlerJoining(verdict: Status) | StartJoining(prevCritical: bool) | StopJoining

  datatype BootPc = AtReset | AtIdle | AtSpawn | AtFail | BootDone

  /** The thread handle `m_thread` and the worker threads that have not returned yet. */
  datatype Threads = Threads(
    handle: Option<nat>,          // the worker m_thread refers to, while joinable
    live: map<nat, Worker>,
    nextId: nat,
    terminated: bool)             // std::terminate was called: a joinable handle was overwritten

  /** The task timer. */
  datatype Timer = Timer(created: bool, armed: bool, alarm: bool)   // alarm: a SIGALRM is pending

  /** What the worker may wait for. */
  datatype Signals = Signals(
    listenContext: bool,          // g_listen_to_deviceContextUpdate
    woken: bool)                  // task_thread was notified since a worker last began to wait in its loop

  datatype Flags = Flags(
    critical: bool,               // g_is_critical_maintenance
    rebootPending: bool)          // g_is_reboot_pending

  datatype State = State(
    cfg: Config,
    boot: BootPc,
    mutex: Mutex,                 // m_statusMutex
    notify: Status,               // m_notify_status
    status: bv16,                 // g_task_status
    inFlight: set<Task>,          // m_task_map: the tasks whose flag is true
    abort: bool,                  // m_abort_flag
    unsolicitedComplete: bool,    // g_unsolicited_complete
    kind: Kind,                   // g_maintenance_type
    current: Option<Task>,        // currentTask
    signals: Signals,
    timer: Timer,
    flags: Flags,
    threads: Threads,
    log: History)

  datatype Step =
    | BootReset | BootIdle | BootSpawn(spawned: bool) | BootFail
    | WorkerStep(id: nat, input: WorkerInput)
    | Event(event: ModuleEvent) | HandlerJoined
    | StartRequest | StartJoined(spawned: bool)
    | StopRequest(killed: bool, disarmed: bool) | StopJoined
    | TimerExpires | AlarmDelivered
    | ContextUpdate(isSet: bool)
    | SpuriousWake                // a wait returns without a notification

  /** The outcomes a worker step may depend on; each step reads the ones it needs. */
  datatype WorkerInput = WorkerInput(probe: Probe, created: bool, timerSet: bool, launched: bool)

  ghost predicate Init(s: State) {
    && s.boot == AtReset && s.mutex == Free && s.notify == Idle && s.status == 0 && s.inFlight == {}
    && !s.abort && !s.unsolicitedComplete && s.current == None && s.signals == Signals(false, false)
    && s.timer == Timer(false, false, false)
    && s.threads.handle == None && s.threads.live == map[] && !s.threads.terminated && s.log == Start
  }

  // ---- Shared pieces ----

  function Publish(s: State, st: Status, origin: Source): State {
    s.(notify := st, log := Then(s.log, Broadcast(st, origin, |s.threads.live|)))
  }

  const NEW_WORKER := Worker(Enter, false, false, InvalidActivation, [], 0, TASK_RETRY_COUNT, false)

  function AddWorker(ts: Threads): Threads {
    if ts.handle.Some? then ts.(terminated := true)
    else Threads(Some(ts.nextId), ts.live[ts.nextId := NEW_WORKER], ts.nextId + 1, ts.terminated)
  }

  function Spawn(s: State): State {
    s.(threads := AddWorker(s.threads), log := Then(s.log, Spawned(s.kind, |s.threads.live|)))
  }

  /** join() returns: there is nothing to join, or the joined worker has returned. */
  predicate JoinReady(s: State) {
    s.threads.handle.None? || s.threads.handle.value !in s.threads.live
  }

  function Joined(s: State): State {
    s.(threads := s.threads.(handle := None))
  }

  /** task_thread.notify_one() */
  function Notified(g: Signals): Signals { g.(woken := true) }

  function StartTimer(t: Timer, created: bool, timerSet: bool): (Timer, bool) {
    if !t.created && !created then (t, false)
    else if !timerSet then (t.(created := true), false)
    else (t.(created := true, armed := true), true)
  }

  function StopTimer(t: Timer, disarmed: bool): Timer {
    if t.created && disarmed then t.(armed := false) else t
  }

  /** The unsolicited cycle has ended; later cycles are solicited. */
  function CompleteUnsolicited(s: State): State {
    if s.kind == UnsolicitedMaintenance && !s.unsolicitedComplete then s.(unsolicitedComplete := true) else s
  }

  // ---- Bootup ----

  function BootResetStep(s: State): State {
    s.(boot := AtIdle, notify := Idle, kind := UnsolicitedMaintenance, flags := Flags(false, false),
       status := 0, abort := false, unsolicitedComplete := false, log := Then(s.log, Reset))
  }

  function BootSpawnStep(s: State, spawned: bool): State {
    if spawned then Spawn(s.(boot := BootDone)) else s.(boot := AtFail)
  }

  function BootFailStep(s: State): State {
    Publish(s.(boot := BootDone, unsolicitedComplete := true), Error, ByBoot)
  }

  // ---- Worker: each function gives the shared state and the worker's locals after one step ----

  /** getActivatedStatus: whether to go on, and whether to skip the firmware task. */
  function ActivatedStatus(a: Activation): (bool, bool) {
    match a
    case ActivationDisconnect => (false, false)
    case NotActivated | ActivationReady | ActivationConnect => (true, true)
    case Activated | InvalidActivation => (true, false)
  }

  function EnterStep(s: State, w: Worker): (State, Worker) {
    var delay := s.kind == UnsolicitedMaintenance && s.cfg.whoAmI;
    (s, w.(delay := delay, pc := if delay then Probing else Announce))
  }

  function ProbeStep(s: State, w: Worker, p: Probe): (State, Worker) {
    var gated := !s.cfg.whoAmI && s.cfg.suppress;
    var (proceed, skip) := ActivatedStatus(p.activation);
    var online := p.online && (gated ==> proceed);
    var unsolicitedWhoAmI := s.cfg.whoAmI && s.kind == UnsolicitedMaintenance;
    var wait := unsolicitedWhoAmI && !p.knowsWhoAmI && p.activation != Activated;
    var offline := !online && (unsolicitedWhoAmI ==> p.activation == Activated);
    var pc := if wait then AwaitContext else if offline then NoNetwork else if w.delay then LateAnnounce else Plan;
    (s.(signals := s.signals.(listenContext := wait || s.signals.listenContext)),
     w.(skipFirmware := gated && skip, activation := p.activation, pc := pc))
  }

  function AwaitStep(s: State, w: Worker): (State, Worker) {
    (s, w.(pc := if w.delay then LateAnnounce else Plan))
  }

  /** The three broadcasts of the worker: STARTED early or late, and ERROR without a network. */
  function AnnounceStep(s: State, w: Worker): (State, Worker)
    requires NeedsMutex(w.pc)
  {
    if w.pc == NoNetwork then (Publish(s, Error, ByWorker), w.(pc := NoNetworkTail))
    else (Publish(s, Started, ByWorker), w.(pc := if w.pc == Announce then Probing else Plan))
  }

  function PlanStep(s: State, w: Worker): (State, Worker) {
    if w.skipFirmware then
      (s.(status := SetStatus(SetStatus(s.status, SuccessBit(SWUPDATE)), CompleteBit(SWUPDATE)),
          log := Then(s.log, FirmwareSkipped(s.cfg, w.activation))),
       w.(pc := LoopTest, tasks := [RFC, LOGUPLOAD], i := 0))
    else
      (s, w.(pc := LoopTest, tasks := [RFC, SWUPDATE, LOGUPLOAD], i := 0))
  }

  function TestStep(s: State, w: Worker): (State, Worker) {
    (s, w.(pc := if w.i < |w.tasks| && !s.abort then Body else Finish))
  }

  function NextTask(w: Worker): Worker {
    w.(pc := LoopTest, i := w.i + 1, retry := TASK_RETRY_COUNT)
  }

  function BodyStep(s: State, w: Worker, in_: WorkerInput): (State, Worker)
    requires w.i < |w.tasks|
  {
    var s1 := s.(current := Some(w.tasks[w.i]));
    if s.abort then (s1, NextTask(w))
    else if w.retry == TASK_RETRY_COUNT then
      var (timer, started) := StartTimer(s.timer, in_.created, in_.timerSet);
      (s1.(timer := timer), w.(pc := if started then Launch else LaunchFailure, timerOn := started))
    else (s1, w.(pc := if w.timerOn then Launch else LaunchFailure))
  }

  function LaunchStep(s: State, w: Worker): (State, Worker)
    requires w.i < |w.tasks|
  {
    (s.(inFlight := s.inFlight + {w.tasks[w.i]}), w.(pc := Launching))
  }

  /** system() returns. A wait begins without a notification, whatever was sent before. */
  function LaunchedStep(s: State, w: Worker, launched: bool): (State, Worker) {
    (if launched then s.(signals := s.signals.(woken := false)) else s,
     w.(pc := if launched then Waiting else LaunchFailure))
  }

  function LaunchFailureStep(s: State, w: Worker, disarmed: bool): (State, Worker)
    requires w.i < |w.tasks|
  {
    var t := w.tasks[w.i];
    var left := s.inFlight - {t};
    if w.retry > 0 && w.timerOn then (s.(inFlight := left), w.(pc := LoopTest, retry := w.retry - 1))
    else
      (s.(inFlight := left, status := SetStatus(s.status, CompleteBit(t)), log := Then(s.log, LaunchFailed(t)),
          timer := StopTimer(s.timer, disarmed)),
       NextTask(w))
  }

  function WakeStep(s: State, w: Worker, disarmed: bool): (State, Worker) {
    (s.(timer := StopTimer(s.timer, disarmed)), NextTask(w))
  }

  /** The no-network exit. */
  function OfflineReturn(s: State): State { CompleteUnsolicited(s) }

  /** The end of the task loop. */
  function FinishReturn(s: State, disarmed: bool): State {
    if s.abort then s.(abort := false, timer := StopTimer(s.timer, disarmed)) else s
  }

  /** Inside the body of the task loop, with a task chosen. */
  predicate OnTask(pc: Pc) {
    match pc
    case Body | Launch | Launching | LaunchFailure | Waiting => true
    case _ => false
  }

  /** The next step of the worker is its last. */
  predicate Ends(pc: Pc) { pc == NoNetworkTail || pc == Finish }

  predicate NeedsMutex(pc: Pc) { pc == Announce || pc == NoNetwork || pc == LateAnnounce }

  predicate WorkerEnabled(s: State, w: Worker) {
    && (NeedsMutex(w.pc) ==> s.mutex == Free)
    && (w.pc == AwaitContext ==> !s.signals.listenContext)
    && (w.pc == Waiting ==> s.signals.woken)
    && (OnTask(w.pc) ==> w.i < |w.tasks|)
  }

  function Put(p: (State, Worker), id: nat): State {
    p.0.(threads := p.0.threads.(live := p.0.threads.live[id := p.1]))
  }

  function Remove(s: State, id: nat): State {
    s.(threads := s.threads.(live := s.threads.live - {id}))
  }

  function WorkerNext(s: State, id: nat, in_: WorkerInput): State
    requires id in s.threads.live && WorkerEnabled(s, s.threads.live[id])
  {
    var w := s.threads.live[id];
    match w.pc
    case Enter => Put(EnterStep(s, w), id)
    case Announce | NoNetwork | LateAnnounce => Put(AnnounceStep(s, w), id)
    case Probing => Put(ProbeStep(s, w, in_.probe), id)
    case AwaitContext => Put(AwaitStep(s, w), id)
    case Plan => Put(PlanStep(s, w), id)
    case LoopTest => Put(TestStep(s, w), id)
    case Body => Put(BodyStep(s, w, in_), id)
    case Launch => Put(LaunchStep(s, w), id)
    case Launching => Put(LaunchedStep(s, w, in_.launched), id)
    case LaunchFailure => Put(LaunchFailureStep(s, w, in_.timerSet), id)
    case Waiting => Put(WakeStep(s, w, in_.timerSet), id)
    case NoNetworkTail => Remove(OfflineReturn(s), id)
    case Finish => Remove(FinishReturn(s, in_.timerSet), id)
  }

  // ---- IARM event handler ----

  function ApplyEvent(s: State, e: ModuleEvent): State {
    match e
    case Done(t) =>
      if t !in s.inFlight then s
      else s.(status := SetStatus(SetStatus(s.status, SuccessBit(t)), CompleteBit(t)), inFlight := s.inFlight - {t},
              signals := Notified(s.signals), log := Then(s.log, Accepted(t, t in s.inFlight)))
    case Failed(t) =>
      if t !in s.inFlight then s
      else s.(status := SetStatus(s.status, CompleteBit(t)), inFlight := s.inFlight + {t},
              signals := Notified(s.signals))
    case InProgress(t) => s.(inFlight := s.inFlight + {t})
    case FirmwareAborted =>
      s.(status := SetStatus(SetStatus(s.status, TASK_SKIPPED), CompleteBit(SWUPDATE)),
         inFlight := s.inFlight - {SWUPDATE}, signals := Notified(s.signals))
    case RebootRequired => s.(status := SetStatus(s.status, REBOOT_REQUIRED), flags := s.flags.(rebootPending := true))
    case CriticalUpdate => s.(flags := s.flags.(critical := true))
    case Other => s
  }

  /** The handler up to its join: the verdict, if any, is drawn and the mutex stays held. */
  function EventStep(s: State, e: ModuleEvent): State {
    if s.abort || s.notify != Started then s
    else
      var s1 := ApplyEvent(s, e);
      match Verdict(s1.status)
      case None => s1
      case Some(v) =>
        s1.(mutex := HandlerJoining(v), log := if v == Complete then Then(s1.log, TimeRecorded) else s1.log)
  }

  function HandlerJoinedStep(s: State): State
    requires s.mutex.HandlerJoining?
  {
    Publish(CompleteUnsolicited(Joined(s)), s.mutex.verdict, ByHandler).(mutex := Free)
  }

  // ---- startMaintenance and stopMaintenance ----

  function StartStep(s: State): State {
    if s.notify == Started || !s.unsolicitedComplete then s
    else s.(mutex := StartJoining(s.flags.critical), status := 0, kind := SolicitedMaintenance, abort := false,
            flags := Flags(false, true), log := Then(s.log, Reset))
  }

  function StartJoinedStep(s: State, spawned: bool): State
    requires s.mutex.StartJoining?
  {
    if spawned then Spawn(Joined(s)).(mutex := Free)
    else Joined(s).(flags := s.flags.(critical := s.mutex.prevCritical), mutex := Free)
  }

  /** The first task whose flag is true is the one that is killed. */
  function FirstInFlight(tasks: set<Task>): Option<Task> {
    if RFC in tasks then Some(RFC) else if SWUPDATE in tasks then Some(SWUPDATE)
    else if LOGUPLOAD in tasks then Some(LOGUPLOAD) else None
  }

  function StopStep(s: State, killed: bool, disarmed: bool): State {
    if s.notify != Started then s
    else
      var victim := FirstInFlight(s.inFlight);
      var left := if victim.Some? && killed then s.inFlight - {victim.value} else s.inFlight;
      s.(mutex := StopJoining, abort := true, inFlight := left, timer := StopTimer(s.timer, disarmed),
          signals := Notified(s.signals))
  }

  function StopJoinedStep(s: State): State {
    Publish(CompleteUnsolicited(Joined(s)), Error, ByStop).(mutex := Free)
  }

  // ---- Timer signal ----

  function AlarmStep(s: State): State {
    var s1 := s.(timer := s.timer.(alarm := false));
    if s.current.None? || s.current.value !in s.inFlight then s1
    else
      var t := s.current.value;
      s1.(inFlight := s.inFlight - {t}, status := SetStatus(s.status, CompleteBit(t)),
          signals := Notified(s.signals),          log := Then(s.log, TimedOut(t)))
  }

  function ContextStep(s: State, isSet: bool): State {
    if s.signals.listenContext && s.kind == UnsolicitedMaintenance && isSet
    then s.(signals := Signals(false, true)) else s
  }

  // ---- The step relation ----

  predicate Enabled(s: State, step: Step) {
    match step
    case BootReset => s.boot == AtReset
    case BootIdle => s.boot == AtIdle && s.mutex == Free
    case BootSpawn(_) => s.boot == AtSpawn
    case BootFail => s.boot == AtFail && s.mutex == Free
    case WorkerStep(id, _) => id in s.threads.live && WorkerEnabled(s, s.threads.live[id])
    case Event(_) => s.mutex == Free
    case HandlerJoined => s.mutex.HandlerJoining? && JoinReady(s)
    case StartRequest => s.mutex == Free
    case StartJoined(_) => s.mutex.StartJoining? && JoinReady(s)
    case StopRequest(_, _) => s.mutex == Free
    case StopJoined => s.mutex == StopJoining && JoinReady(s)
    case TimerExpires => s.timer.armed
    case AlarmDelivered => s.timer.alarm
    case ContextUpdate(_) => true
    case SpuriousWake => true
  }

  function Next(s: State, step: Step): State
    requires Enabled(s, step)
  {
    match step
    case BootReset => BootResetStep(s)
    case BootIdle => Publish(s.(boot := AtSpawn), s.notify, ByBoot)
    case BootSpawn(spawned) => BootSpawnStep(s, spawned)
    case BootFail => BootFailStep(s)
    case WorkerStep(id, in_) => WorkerNext(s, id, in_)
    case Event(e) => EventStep(s, e)
    case HandlerJoined => HandlerJoinedStep(s)
    case StartRequest => StartStep(s)
    case StartJoined(spawned) => StartJoinedStep(s, spawned)
    case StopRequest(killed, disarmed) => StopStep(s, killed, disarmed)
    case StopJoined => StopJoinedStep(s)
    case TimerExpires => s.(timer := s.timer.(armed := false, alarm := true))
    case AlarmDelivered => AlarmStep(s)
    case ContextUpdate(isSet) => ContextStep(s, isSet)
    case SpuriousWake => s.(signals := Notified(s.signals))
  }

  /** A finite execution: states joined by enabled steps. */
  ghost predicate IsExecution(states: seq<State>, steps: seq<Step>) {
    && |states| == |steps| + 1
    && forall k :: 0 <= k < |steps| ==> Enabled(states[k], steps[k]) && states[k + 1] == Next(states[k], steps[k])
  }

  /** An execution from the state the constructor leaves. */
  ghost predicate IsRun(states: seq<State>, steps: seq<Step>) {
    IsExecution(states, steps) && Init(states[0])
  }
}

/** The job protocol of the packager: any number of callers of `DoWork`, `Register` and `Unregister` against the one
    install thread. Each section under `_adminLock` and each unlocked statement group of the worker is one step. */
module PackagerProtocol {
  import opened Wrappers

  datatype InstallState = IDLE | DOWNLOADING | DOWNLOADED | INSTALLING | INSTALLED

  /** What a StateChange notification shows of the InstallInfo object: its state and its error code. */
  datatype Report = Report(state: InstallState, error: nat)

  const FRESH := Report(IDLE, 0)

  type Observer = int

  /** What an observer was told in the very call that registered it. */
  datatype Greeting =
    | Silence                   // no installation in progress
    | Repeat(report: Report)    // the report published last
    | Early(report: Report)     // a report that is set but not published yet
    | Untold                    // a job for which nothing has been set yet

  /** One element of `_notifications`: the observer, and what this registration has received. */
  datatype Slot = Slot(observer: Observer, since: nat, greeting: Greeting, got: seq<Report>)

  datatype OpkgEvent = Init | Free

  /** Where the install thread stands. `Dirty` is inside the opkg call, with a change not yet notified. */
  datatype Pc = Asleep | Head | ReadJob | Scan | Updating | Synced | Installing | Dirty | Clear | BeforeBlock

  datatype State = State(
    install: Option<Report>,       // _inProgress.Install
    package: Option<string>,       // _inProgress.Package
    syncing: bool,                 // _isSyncing
    opkg: bool,                    // _opkgInitialized
    slots: seq<Slot>,              // _notifications
    refs: multiset<Observer>,      // references held on observers
    running: bool,                 // the Thunder thread is RUNNING, not BLOCKED
    pc: Pc,
    isInstall: bool,               // the worker's local
    accepted: nat, finished: nat,  // jobs so far
    jobStart: nat,                 // reports published before the current installation
    published: seq<Report>,
    opkgLog: seq<OpkgEvent>)

  datatype Change = SetState(state: InstallState) | SetError(error: nat)

  datatype Step =
    | Register(observer: Observer)
    | Unregister(observer: Observer)
    | Install(package: string, initOk: bool)
    | Synchronize(initOk: bool)
    | Wake | Test | Read
    | ScanLists(containFiles: bool)
    | Updated
    | NotifySynced
    | ChangeInfo(change: Change)
    | Notify
    | InstallReturns
    | ClearJob
    | Block

  ghost predicate Initial(s: State) {
    && s.install == None && s.package == None && !s.syncing && !s.opkg && s.slots == [] && s.refs == multiset{}
    && !s.running && s.pc == Asleep && !s.isInstall && s.accepted == 0 && s.finished == 0 && s.jobStart == 0
    && s.published == [] && s.opkgLog == []
  }

  /** A job is in progress. */
  predicate Job(s: State) { s.install.Some? || s.syncing }

  // ---- Observers ----

  function Greet(s: State): Greeting {
    if s.install.None? then Silence
    else if s.pc == Dirty then Early(s.install.value)
    else if |s.published| > s.jobStart then Repeat(s.install.value)
    else Untold
  }

  function RegisterStep(s: State, o: Observer): State {
    var told := if s.install.Some? then [s.install.value] else [];
    s.(refs := s.refs + multiset{o}, slots := s.slots + [Slot(o, |s.published|, Greet(s), told)])
  }

  predicate Listed(slots: seq<Slot>, o: Observer) {
    exists i :: 0 <= i < |slots| && slots[i].observer == o
  }

  /** The first slot of an observer, which is the one std::find returns. */
  function FirstSlot(slots: seq<Slot>, o: Observer): (i: nat)
    requires Listed(slots, o)
    ensures i < |slots| && slots[i].observer == o && forall j :: 0 <= j < i ==> slots[j].observer != o
  {
    if slots[0].observer == o then 0
    else
      assert Listed(slots[1..], o) by {
        var k :| 0 <= k < |slots| && slots[k].observer == o;
        assert slots[1..][k - 1] == slots[k];
      }
      FirstSlot(slots[1..], o) + 1
  }

  function UnregisterStep(s: State, o: Observer): State
    requires Listed(s.slots, o)
  {
    var i := FirstSlot(s.slots, o);
    s.(refs := s.refs - multiset{o}, slots := s.slots[..i] + s.slots[i + 1..])
  }

  function Deliver(slots: seq<Slot>, r: Report): (d: seq<Slot>)
    ensures |d| == |slots|
  {
    seq(|slots|, i requires 0 <= i < |slots| => slots[i].(got := slots[i].got + [r]))
  }

  // ---- DoWork ----

  function FreeOpkg(s: State): State {
    if s.opkg then s.(opkg := false, opkgLog := s.opkgLog + [Free]) else s
  }

  function InitOpkg(s: State, initOk: bool): State {
    s.(opkg := initOk, opkgLog := if initOk then s.opkgLog + [Init] else s.opkgLog)
  }

  function DoWorkStep(s: State, package: Option<string>, initOk: bool): State {
    if Job(s) then s
    else
      var s1 := InitOpkg(FreeOpkg(s), initOk);
      if !initOk then s1
      else
        var s2 := s1.(running := true, accepted := s.accepted + 1);
        match package
        case Some(_) => s2.(package := package, install := Some(FRESH), jobStart := |s.published|)
        case None => s2.(syncing := true)
  }

  // ---- The install thread ----

  function TestStep(s: State): State { s.(pc := if s.running then ReadJob else Asleep) }

  function ReadStep(s: State): State { s.(pc := Scan, isInstall := s.install.Some?) }

  /** BlockingSetupLocalRepoNoLock: in SETUP mode lists that are already there are used as they are. */
  function ScanStep(s: State, containFiles: bool): State {
    s.(pc := if s.isInstall && containFiles then Installing else Updating)
  }

  function NotifySyncedStep(s: State): State {
    s.(syncing := false, finished := if s.syncing then s.finished + 1 else s.finished,
       pc := if s.isInstall then Installing else BeforeBlock)
  }

  function Apply(r: Report, c: Change): Report {
    match c case SetState(st) => r.(state := st) case SetError(e) => r.(error := e)
  }

  /** Setting a field of an InstallInfo that is not there, or announcing one, would be a crash: see `AssertsHold`. */
  function ChangeStep(s: State, c: Change): State {
    if s.install.None? then s else s.(install := Some(Apply(s.install.value, c)), pc := Dirty)
  }

  function NotifyStep(s: State): State {
    if s.install.None? then s
    else s.(pc := Installing, published := s.published + [s.install.value], slots := Deliver(s.slots, s.install.value))
  }

  function ClearStep(s: State): State {
    s.(install := None, package := None, finished := s.finished + 1, pc := BeforeBlock)
  }

  function BlockStep(s: State): State { s.(running := false, pc := Head) }

  /** When a step can be taken. What the source asserts of its own fields is no part of it: see `AssertsHold`. What it
      asserts of a caller is: only an observer that is listed is unregistered. In `ChangeInfo`, the code sets no state
      back to IDLE and no error to zero. */
  predicate Enabled(s: State, step: Step) {
    match step
    case Register(_) => true
    case Unregister(o) => Listed(s.slots, o)
    case Install(_, _) => true
    case Synchronize(_) => true
    case Wake => s.pc == Asleep && s.running
    case Test => s.pc == Head
    case Read => s.pc == ReadJob
    case ScanLists(_) => s.pc == Scan
    case Updated => s.pc == Updating
    case NotifySynced => s.pc == Synced
    case ChangeInfo(c) => s.pc == Installing && (match c case SetState(st) => st != IDLE case SetError(e) => e > 0)
    case Notify => s.pc == Dirty
    case InstallReturns => s.pc == Installing
    case ClearJob => s.pc == Clear
    case Block => s.pc == BeforeBlock
  }

  function Next(s: State, step: Step): State
    requires Enabled(s, step)
  {
    match step
    case Register(o) => RegisterStep(s, o)
    case Unregister(o) => UnregisterStep(s, o)
    case Install(p, initOk) => DoWorkStep(s, Some(p), initOk)
    case Synchronize(initOk) => DoWorkStep(s, None, initOk)
    case Wake => s.(pc := Head)
    case Test => TestStep(s)
    case Read => ReadStep(s)
    case ScanLists(containFiles) => ScanStep(s, containFiles)
    case Updated => s.(pc := Synced)
    case NotifySynced => NotifySyncedStep(s)
    case ChangeInfo(c) => ChangeStep(s, c)
    case Notify => NotifyStep(s)
    case InstallReturns => s.(pc := Clear)
    case ClearJob => ClearStep(s)
    case Block => BlockStep(s)
  }

  ghost predicate IsExecution(states: seq<State>, steps: seq<Step>) {
    && |states| == |steps| + 1
    && forall k :: 0 <= k < |steps| ==> Enabled(states[k], steps[k]) && states[k + 1] == Next(states[k], steps[k])
  }

  ghost predicate IsRun(states: seq<State>, steps: seq<Step>) {
    IsExecution(states, steps) && Initial(states[0])
  }

  // ---- What the source asserts ----

  /** The worker is inside an opkg call, or reads the opkg configuration. */
  predicate UsesOpkg(pc: Pc) { pc == Scan || pc == Updating || pc == Installing || pc == Dirty }

  /** The assertions and dereferences of the step's code. */
  predicate AssertsHold(s: State, step: Step) {
    match step
    case Register(_) => s.install.Some? ==> s.package.Some?
    case Install(_, _) | Synchronize(_) => !Job(s) ==> s.package.None?
    case Read => (s.install.Some? ==> s.package.Some?) && Job(s)
    case ScanLists(_) => s.isInstall || s.syncing
    case ChangeInfo(_) | InstallReturns | ClearJob => s.install.Some? && s.package.Some?
    case Notify => s.install.Some? && s.package.Some?
    case _ => true
  }
}

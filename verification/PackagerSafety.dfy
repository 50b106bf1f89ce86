/** What every run of the packager keeps. */
module PackagerSafety {
  import opened Wrappers
  import opened PackagerProtocol

  // ---- Jobs and opkg ----

  /** Initialisations and clean-ups of opkg take turns, initialisation first. */
  predicate TakeTurns(log: seq<OpkgEvent>) {
    forall k :: 0 <= k < |log| ==> log[k] == if k % 2 == 0 then OpkgEvent.Init else OpkgEvent.Free
  }

  predicate JobOk(s: State) {
    && (s.install.Some? <==> s.package.Some?)
    && !(s.install.Some? && s.syncing)
    && s.accepted == s.finished + (if Job(s) then 1 else 0)
  }

  predicate OpkgOk(s: State) {
    && (Job(s) ==> s.opkg)
    && TakeTurns(s.opkgLog)
    && (s.opkg <==> |s.opkgLog| % 2 == 1)
  }

  predicate WorkerOk(s: State) {
    match s.pc
    case Asleep | Head => s.running ==> Job(s)
    case ReadJob => s.running && Job(s)
    case Scan | Updating | Synced => s.running && (if s.isInstall then s.install.Some? else s.syncing)
    case Installing | Dirty | Clear => s.running && s.isInstall && s.install.Some?
    case BeforeBlock => s.running
  }

  predicate JobInv(s: State) { JobOk(s) && OpkgOk(s) && WorkerOk(s) }

  lemma OpkgTurns(s: State, initOk: bool)
    requires TakeTurns(s.opkgLog) && (s.opkg <==> |s.opkgLog| % 2 == 1)
    ensures var r := InitOpkg(FreeOpkg(s), initOk);
      TakeTurns(r.opkgLog) && (r.opkg <==> |r.opkgLog| % 2 == 1) && r.opkg == initOk
  {
    assert TakeTurns(FreeOpkg(s).opkgLog);
  }

  lemma DoWorkKeepsJob(s: State, package: Option<string>, initOk: bool)
    requires JobInv(s)
    ensures JobInv(DoWorkStep(s, package, initOk))
  {
    hide TakeTurns;
    OpkgTurns(s, initOk);
  }

  lemma JobStep(s: State, step: Step)
    requires JobInv(s) && Enabled(s, step)
    ensures JobInv(Next(s, step)) && AssertsHold(s, step)
  {
    hide TakeTurns, DoWorkStep, FirstSlot, Deliver;
    match step
    case Install(package, initOk) => DoWorkKeepsJob(s, Some(package), initOk);
    case Synchronize(initOk) => DoWorkKeepsJob(s, None, initOk);
    case _ =>
  }

  // ---- Observers ----

  function ObserversOf(slots: seq<Slot>): (os: seq<Observer>)
    ensures |os| == |slots| && forall i :: 0 <= i < |slots| ==> os[i] == slots[i].observer
  {
    seq(|slots|, i requires 0 <= i < |slots| => slots[i].observer)
  }

  function ToldAtFirst(g: Greeting): seq<Report> {
    match g
    case Silence => []
    case Repeat(r) => [r]
    case Early(r) => [r]
    case Untold => [FRESH]
  }

  predicate SlotOk(s: State, slot: Slot) {
    && slot.since <= |s.published|
    && slot.got == ToldAtFirst(slot.greeting) + s.published[slot.since..]
    && (match slot.greeting
        case Silence => true
        case Untold => true
        case Repeat(r) => 0 < slot.since && s.published[slot.since - 1] == r
        case Early(r) =>
          if slot.since < |s.published| then s.published[slot.since] == r
          else s.pc == Dirty && s.install == Some(r))
  }

  /** The installation in progress agrees with what was published of it. */
  predicate CurrentOk(s: State) {
    && s.jobStart <= |s.published|
    && (forall i :: 0 <= i < |s.published| ==> s.published[i] != FRESH)
    && (s.install.Some? && s.pc != Dirty ==>
          s.install.value == if |s.published| > s.jobStart then s.published[|s.published| - 1] else FRESH)
    && (s.pc == Dirty ==> s.install.Some? && s.install.value != FRESH)
  }

  predicate ObserverInv(s: State) {
    && CurrentOk(s)
    && s.refs == multiset(ObserversOf(s.slots))
    && forall i :: 0 <= i < |s.slots| ==> SlotOk(s, s.slots[i])
  }

  lemma RegisterKeeps(s: State, o: Observer)
    requires ObserverInv(s)
    ensures ObserverInv(RegisterStep(s, o))
  {
    var r := RegisterStep(s, o);
    assert ObserversOf(r.slots) == ObserversOf(s.slots) + [o];
    forall i | 0 <= i < |r.slots| ensures SlotOk(r, r.slots[i]) {
      if i < |s.slots| {
        assert r.slots[i] == s.slots[i];
      } else {
        assert s.published[|s.published|..] == [];
      }
    }
  }

  lemma RemovedOnce(slots: seq<Slot>, i: nat)
    requires i < |slots|
    ensures multiset(ObserversOf(slots[..i] + slots[i + 1..])) ==
            multiset(ObserversOf(slots)) - multiset{slots[i].observer}
  {
    var os := ObserversOf(slots);
    assert os == os[..i] + [os[i]] + os[i + 1..];
    assert ObserversOf(slots[..i] + slots[i + 1..]) == os[..i] + os[i + 1..];
  }

  lemma SameSlot(s: State, r: State, slot: Slot)
    requires r.published == s.published && r.pc == s.pc && r.install == s.install && r.jobStart == s.jobStart
    ensures SlotOk(s, slot) <==> SlotOk(r, slot)
    ensures CurrentOk(s) <==> CurrentOk(r)
  {}

  lemma UnregisterKeeps(s: State, o: Observer)
    requires ObserverInv(s) && Listed(s.slots, o)
    ensures ObserverInv(UnregisterStep(s, o))
  {
    hide FirstSlot, ObserversOf, SlotOk, CurrentOk;
    var r := UnregisterStep(s, o);
    var i := FirstSlot(s.slots, o);
    RemovedOnce(s.slots, i);
    SameSlot(s, r, s.slots[i]);
    forall j | 0 <= j < |r.slots| ensures SlotOk(r, r.slots[j]) {
      var k := if j < i then j else j + 1;
      assert r.slots[j] == s.slots[k];
      SameSlot(s, r, s.slots[k]);
    }
  }

  lemma NotifyKeeps(s: State)
    requires ObserverInv(s) && s.pc == Dirty
    ensures ObserverInv(NotifyStep(s))
  {
    var r := NotifyStep(s);
    assert ObserversOf(r.slots) == ObserversOf(s.slots);
    forall i | 0 <= i < |r.slots| ensures SlotOk(r, r.slots[i]) {
      var slot := s.slots[i];
      assert SlotOk(s, slot);
      assert r.published[slot.since..] == s.published[slot.since..] + [s.install.value];
    }
  }

  /** Steps that touch neither the observers nor the published reports. */
  lemma SameReports(s: State, r: State)
    requires ObserverInv(s) && r.slots == s.slots && r.refs == s.refs && r.published == s.published && CurrentOk(r)
    requires s.pc == Dirty ==> r.pc == Dirty && r.install == s.install
    ensures ObserverInv(r)
  {
    forall i | 0 <= i < |r.slots| ensures SlotOk(r, r.slots[i]) {
      assert SlotOk(s, s.slots[i]);
    }
  }

  lemma OthersKeepReports(s: State, step: Step)
    requires CurrentOk(s) && JobInv(s) && Enabled(s, step)
    requires !step.Register? && !step.Unregister? && !step.Notify?
    ensures var r := Next(s, step);
      r.slots == s.slots && r.refs == s.refs && r.published == s.published && CurrentOk(r)
    ensures var r := Next(s, step); s.pc == Dirty ==> r.pc == Dirty && r.install == s.install
  {
    hide TakeTurns, FirstSlot, Deliver, DoWorkStep;
    match step
    case Install(p, initOk) => DoWorkKeepsReports(s, Some(p), initOk);
    case Synchronize(initOk) => DoWorkKeepsReports(s, None, initOk);
    case _ =>
  }

  lemma DoWorkKeepsReports(s: State, package: Option<string>, initOk: bool)
    requires CurrentOk(s) && JobInv(s)
    ensures var r := DoWorkStep(s, package, initOk);
      r.slots == s.slots && r.refs == s.refs && r.published == s.published && CurrentOk(r)
    ensures var r := DoWorkStep(s, package, initOk); s.pc == Dirty ==> r.pc == Dirty && r.install == s.install
  {
    hide TakeTurns;
  }

  lemma OthersKeep(s: State, step: Step)
    requires ObserverInv(s) && JobInv(s) && Enabled(s, step)
    requires !step.Register? && !step.Unregister? && !step.Notify?
    ensures ObserverInv(Next(s, step))
  {
    hide JobInv, Next, Enabled, SlotOk, CurrentOk;
    OthersKeepReports(s, step);
    SameReports(s, Next(s, step));
  }

  ghost predicate Inv(s: State) { JobInv(s) && ObserverInv(s) }

  lemma StepKeeps(s: State, step: Step)
    requires Inv(s) && Enabled(s, step)
    ensures Inv(Next(s, step)) && AssertsHold(s, step)
  {
    hide JobInv, ObserverInv;
    JobStep(s, step);
    match step
    case Register(o) => RegisterKeeps(s, o);
    case Unregister(o) => UnregisterKeeps(s, o);
    case Notify => NotifyKeeps(s);
    case _ => OthersKeep(s, step);
  }

  lemma DoWorkIsSafe(s: State, job: Option<string>, initOk: bool)
    requires Inv(s)
    ensures Inv(DoWorkStep(s, job, initOk)) && (!Job(s) ==> s.package.None?)
  {
    hide Inv, DoWorkStep;
    match job
    case Some(p) => StepKeeps(s, Install(p, initOk));
    case None => StepKeeps(s, Synchronize(initOk));
  }

  lemma {:induction false} RunKeeps(states: seq<State>, steps: seq<Step>, k: nat)
    requires IsRun(states, steps) && k < |states|
    ensures Inv(states[k])
  {
    hide JobInv, ObserverInv;
    if k == 0 {
      InitialInv(states[0]);
    } else {
      RunKeeps(states, steps, k - 1);
      StepKeeps(states[k - 1], steps[k - 1]);
    }
  }

  lemma InitialInv(s: State)
    requires Initial(s)
    ensures Inv(s)
  {}

  // ---- The theorems ----

  /** Every assertion and dereference of the code holds whenever its step is taken. */
  lemma AssertionsNeverFail(states: seq<State>, steps: seq<Step>, k: nat)
    requires IsRun(states, steps) && k < |steps|
    ensures AssertsHold(states[k], steps[k])
  {
    RunKeeps(states, steps, k);
    StepKeeps(states[k], steps[k]);
  }

  /** While the worker is inside opkg, opkg is initialised for the job in progress, and no step of anyone frees or
      initialises it; initialisations and clean-ups take turns over the whole run. */
  lemma OpkgIsNeverTornDownUnderAJob(states: seq<State>, steps: seq<Step>, k: nat)
    requires IsRun(states, steps) && k < |states|
    ensures TakeTurns(states[k].opkgLog)
    ensures UsesOpkg(states[k].pc) ==> states[k].opkg && Job(states[k])
    ensures UsesOpkg(states[k].pc) && k < |steps| ==> states[k + 1].opkgLog == states[k].opkgLog
  {
    RunKeeps(states, steps, k);
  }

  /** Accepted jobs minus finished jobs is one while a job is in progress and zero otherwise. */
  lemma JobsAreConserved(states: seq<State>, steps: seq<Step>, k: nat)
    requires IsRun(states, steps) && k < |states|
    ensures states[k].accepted - states[k].finished == if Job(states[k]) then 1 else 0
    ensures states[k].install.Some? <==> states[k].package.Some?
  {
    RunKeeps(states, steps, k);
  }

  /** The references held equal the multiplicities in the list. */
  lemma ReferencesEqualMultiplicity(states: seq<State>, steps: seq<Step>, k: nat, o: Observer)
    requires IsRun(states, steps) && k < |states|
    ensures states[k].refs[o] == multiset(ObserversOf(states[k].slots))[o]
  {
    RunKeeps(states, steps, k);
  }

  /** `after` is `before` without its first listing of `o`, which stands at `i`. */
  predicate TakenOut(before: seq<Slot>, after: seq<Slot>, o: Observer, i: nat) {
    && i < |before| && before[i].observer == o && (forall j :: 0 <= j < i ==> before[j].observer != o)
    && |after| == |before| - 1
    && (forall j :: 0 <= j < i ==> after[j] == before[j])
    && (forall j :: i <= j < |after| ==> after[j] == before[j + 1])
  }

  /** Unregistering gives back exactly one reference and takes exactly the first listing of the observer out; every
      other listing keeps its place and what it has received. */
  lemma UnregisterTakesTheFirst(s: State, o: Observer) returns (i: nat)
    requires Inv(s) && Listed(s.slots, o)
    ensures TakenOut(s.slots, UnregisterStep(s, o).slots, o, i)
    ensures s.refs[o] > 0 && UnregisterStep(s, o).refs == s.refs - multiset{o}
  {
    i := FirstSlot(s.slots, o);
    ListedIsHeld(s, i);
    hide Inv, FirstSlot, Listed;
    assert UnregisterStep(s, o).slots == s.slots[..i] + s.slots[i + 1..];
  }

  lemma ListedIsHeld(s: State, i: nat)
    requires Inv(s) && i < |s.slots|
    ensures s.refs[s.slots[i].observer] > 0
  {
    assert ObserversOf(s.slots)[i] in multiset(ObserversOf(s.slots));
  }

  predicate IsSuffix(a: seq<Report>, b: seq<Report>) {
    |a| <= |b| && a == b[|b| - |a|..]
  }

  /** A suffix, or a suffix whose head comes twice. */
  predicate SuffixWithHeadTwice(a: seq<Report>, b: seq<Report>) {
    IsSuffix(a, b) || (|a| > 1 && a[0] == a[1] && IsSuffix(a[1..], b))
  }

  lemma FreshIsInNoSuffix(a: seq<Report>, b: seq<Report>)
    requires |a| > 0 && a[0] == FRESH && forall i :: 0 <= i < |b| ==> b[i] != FRESH
    ensures !IsSuffix(a, b)
  {
    if |a| <= |b| {
      assert b[|b| - |a|..][0] == b[|b| - |a|];
    }
  }

  /** What each registration has received, at any moment of any run, is a suffix of the published history with at most
      its head doubled, or the one report about to be published, exactly unless the observer registered between the
      acceptance of an installation and the first report set for it. It is then told IDLE without error first, which is
      never published, and a suffix of the history afterwards. */
  lemma ObserversReceiveASuffix(states: seq<State>, steps: seq<Step>, k: nat, i: nat)
    requires IsRun(states, steps) && k < |states| && i < |states[k].slots|
    ensures var slot := states[k].slots[i]; var s := states[k];
      && (slot.greeting != Untold <==>
            || SuffixWithHeadTwice(slot.got, s.published)
            || (s.pc == Dirty && s.install.Some? && slot.got == [s.install.value]))
      && (slot.greeting == Untold ==> |slot.got| > 0 && slot.got[0] == FRESH && IsSuffix(slot.got[1..], s.published))
  {
    RunKeeps(states, steps, k);
    var s := states[k];
    var slot := s.slots[i];
    assert SlotOk(s, slot);
    var tail := s.published[slot.since..];
    match slot.greeting
    case Silence =>
      assert slot.got == tail;
    case Repeat(r) =>
      assert slot.got == s.published[slot.since - 1..];
    case Early(r) =>
      if slot.since < |s.published| {
        assert slot.got[0] == slot.got[1] && slot.got[1..] == tail;
      }
    case Untold =>
      assert slot.got[1..] == tail && slot.got[0] == FRESH;
      assert |tail| > 0 ==> tail[0] == s.published[slot.since];
      FreshIsInNoSuffix(slot.got, s.published);
  }

  /** Registering is greeted with a report never published exactly in that window. */
  lemma UntoldOnlyBeforeTheFirstReport(s: State, o: Observer)
    requires Inv(s)
    ensures var slot := RegisterStep(s, o).slots[|s.slots|];
      slot.greeting == Untold <==> s.install.Some? && s.install.value == FRESH
  {
    assert CurrentOk(s);
  }

  // ---- Lost jobs ----

  /** The worker is past its job and about to block, or already blocked, while another job has been accepted. */
  predicate Lost(s: State) {
    Job(s) && (s.pc == BeforeBlock || (!s.running && (s.pc == Head || s.pc == Asleep)))
  }

  lemma LostStep(s: State, step: Step)
    requires JobInv(s) && Lost(s) && Enabled(s, step)
    ensures var r := Next(s, step); Lost(r) && r.accepted == s.accepted && r.finished == s.finished
  {}

  /** A job that is accepted is lost exactly if the worker has done its last one and is about to block. */
  lemma AcceptedJobIsLostIff(s: State, job: Option<string>)
    requires JobInv(s) && !Job(s)
    ensures Lost(DoWorkStep(s, job, true)) <==> s.pc == BeforeBlock
  {}

  /** Run() before Block() is lost: such a job is never started, and no job is accepted or finished any more. */
  lemma {:induction false} LostForever(states: seq<State>, steps: seq<Step>, j: nat, k: nat)
    requires IsRun(states, steps) && j <= k < |states| && Lost(states[j])
    ensures Lost(states[k]) && states[k].accepted == states[j].accepted && states[k].finished == states[j].finished
  {
    hide Lost, JobInv, ObserverInv;
    if j < k {
      LostForever(states, steps, j, k - 1);
      RunKeeps(states, steps, k - 1);
      LostStep(states[k - 1], steps[k - 1]);
    }
  }

  lemma Continue(states: seq<State>, steps: seq<Step>, step: Step)
    requires IsRun(states, steps) && Enabled(states[|steps|], step)
    ensures IsRun(states + [Next(states[|steps|], step)], steps + [step])
  {}

  /** Every initial state has a run that loses a job: the second synchronisation is accepted after the first has been
      reported and before the thread blocks. */
  lemma LostIsReachable(s: State) returns (states: seq<State>, steps: seq<Step>)
    requires Initial(s)
    ensures IsRun(states, steps) && states[0] == s && Lost(states[|steps|])
  {
    var todo := [Synchronize(true), Wake, Test, Read, ScanLists(false), Updated, NotifySynced, Synchronize(true)];
    states, steps := [s], [];
    for i := 0 to 8
      invariant |steps| == i && IsRun(states, steps) && states[0] == s
      invariant states[i].pc == [Asleep, Asleep, Head, ReadJob, Scan, Updating, Synced, BeforeBlock, BeforeBlock][i]
      invariant states[i].install == None && !states[i].isInstall && (i > 0 ==> states[i].running)
      invariant states[i].syncing <==> 0 < i < 7 || i == 8
    {
      Continue(states, steps, todo[i]);
      states, steps := states + [Next(states[i], todo[i])], steps + [todo[i]];
    }
  }

  /** Every initial state has a run in which an observer is told what is never published. */
  lemma UntoldIsReachable(s: State, package: string, o: Observer) returns (states: seq<State>, steps: seq<Step>)
    requires Initial(s)
    ensures IsRun(states, steps) && states[0] == s && |states[|steps|].slots| == 1
    ensures states[|steps|].slots[0].greeting == Untold && states[|steps|].slots[0].got == [FRESH]
  {
    states, steps := [s], [];
    Continue(states, steps, Install(package, true));
    states, steps := states + [Next(s, Install(package, true))], steps + [Install(package, true)];
    Continue(states, steps, Register(o));
    states, steps := states + [Next(states[1], Register(o))], steps + [Register(o)];
  }

  /** The job in progress can be finished within `n` steps of the worker. */
  ghost predicate CanFinish(s: State, n: nat)
    decreases n
  {
    || !Job(s)
    || (n > 0 && Enabled(s, WorkersNext(s)) && CanFinish(Next(s, WorkersNext(s)), n - 1))
  }

  /** What the worker does next if nothing goes wrong. */
  function WorkersNext(s: State): Step {
    match s.pc
    case Asleep => Wake
    case Head => Test
    case ReadJob => Read
    case Scan => ScanLists(false)
    case Updating => Updated
    case Synced => NotifySynced
    case Installing => InstallReturns
    case Dirty => Notify
    case Clear => ClearJob
    case BeforeBlock => Block
  }

  function StepsLeft(pc: Pc): nat {
    match pc
    case Asleep => 10
    case Head => 9
    case ReadJob => 8
    case Scan => 7
    case Updating => 6
    case Synced => 5
    case Dirty => 4
    case Installing => 3
    case Clear => 2
    case BeforeBlock => 1
  }

  /** A job in progress can be finished by the worker exactly when it is not lost. */
  lemma {:induction false} JobCanFinishIffNotLost(s: State, n: nat)
    requires JobInv(s) && Job(s)
    ensures Lost(s) ==> !CanFinish(s, n)
    ensures !Lost(s) && n >= StepsLeft(s.pc) ==> CanFinish(s, n)
    decreases n
  {
    hide TakeTurns, FirstSlot, Deliver;
    if n > 0 && Enabled(s, WorkersNext(s)) {
      var r := Next(s, WorkersNext(s));
      JobStep(s, WorkersNext(s));
      if Lost(s) { LostStep(s, WorkersNext(s)); }
      if Job(r) {
        JobCanFinishIffNotLost(r, n - 1);
      }
    }
  }

  /** A change, once announced, is one report more for everybody: the state that was set with the error as it was, or
      the error that was set with the state as it was. */
  lemma ChangesArePublished(s: State, st: InstallState, e: nat)
    requires Inv(s) && s.pc == Installing
    ensures s.install.Some?
    ensures NotifyStep(ChangeStep(s, SetState(st))).published == s.published + [Report(st, s.install.value.error)]
    ensures NotifyStep(ChangeStep(s, SetError(e))).published == s.published + [Report(s.install.value.state, e)]
    ensures forall i, c: Change :: 0 <= i < |s.slots| ==>
      var r := NotifyStep(ChangeStep(s, c));
      |r.slots| == |s.slots| && r.slots[i].got == s.slots[i].got + [r.published[|s.published|]]
  {}

  // ---- Which job the worker does ----

  predicate BetweenScanAndClear(pc: Pc) {
    pc == Updating || pc == Synced || pc == Installing || pc == Dirty || pc == Clear
  }

  ghost predicate UpdatedBetween(steps: seq<Step>, j: nat, n: nat)
    requires n <= |steps|
  {
    exists i :: j < i < n && steps[i] == Updated
  }

  /** Step `j` is the look at the local lists that the worker, at state `n`, took last. */
  ghost predicate ScannedAt(states: seq<State>, steps: seq<Step>, j: nat, n: nat)
    requires IsRun(states, steps) && n < |states|
  {
    && j < n && steps[j].ScanLists? && (forall i :: j < i < n ==> !steps[i].ScanLists?)
    && states[j].isInstall == states[n].isInstall
  }

  /** Whether the lists have been updated since. */
  predicate UpdateFits(s: State, direct: bool, updated: bool) {
    match s.pc
    case Updating => !direct && !updated
    case Synced => updated && !direct
    case _ => updated <==> !direct
  }

  /** A step that neither looks at the lists nor starts an iteration. */
  lemma ScanGoesOn(s: State, step: Step, direct: bool, updated: bool)
    requires Enabled(s, step) && !step.ScanLists? && BetweenScanAndClear(Next(s, step).pc)
    ensures BetweenScanAndClear(s.pc) && Next(s, step).isInstall == s.isInstall
    ensures UpdateFits(s, direct, updated) ==> UpdateFits(Next(s, step), direct, updated || step == Updated)
  {
    hide FirstSlot, Deliver, DoWorkStep;
    match step
    case Install(p, initOk) => DoWorkLeavesTheWorker(s, Some(p), initOk);
    case Synchronize(initOk) => DoWorkLeavesTheWorker(s, None, initOk);
    case _ =>
  }

  lemma DoWorkLeavesTheWorker(s: State, job: Option<string>, initOk: bool)
    ensures DoWorkStep(s, job, initOk).pc == s.pc && DoWorkStep(s, job, initOk).isInstall == s.isInstall
  {}

  lemma StartsAsleep(s: State)
    ensures Initial(s) ==> !BetweenScanAndClear(s.pc)
  {}

  lemma ScanBegins(s: State, step: Step)
    requires Enabled(s, step) && step.ScanLists? && BetweenScanAndClear(Next(s, step).pc)
    ensures var r := Next(s, step);
      r.isInstall == s.isInstall && UpdateFits(r, s.isInstall && step.containFiles, false)
  {}

  lemma {:induction false} LastScan(states: seq<State>, steps: seq<Step>, n: nat) returns (j: nat)
    requires IsRun(states, steps) && n < |states| && BetweenScanAndClear(states[n].pc)
    ensures ScannedAt(states, steps, j, n)
    ensures UpdateFits(states[n], states[j].isInstall && steps[j].containFiles, UpdatedBetween(steps, j, n))
  {
    hide Next, Enabled, UpdateFits, BetweenScanAndClear;
    StartsAsleep(states[0]);
    var s, step := states[n - 1], steps[n - 1];
    if step.ScanLists? {
      j := n - 1;
      ScanBegins(s, step);
    } else {
      ScanGoesOn(s, step, false, false);
      j := LastScan(states, steps, n - 1);
      var direct, updated := states[j].isInstall && steps[j].containFiles, UpdatedBetween(steps, j, n - 1);
      ScanGoesOn(s, step, direct, updated);
      assert UpdatedBetween(steps, j, n) <==> updated || step == Updated;
    }
  }

  /** A package is installed after an update of the lists, or without one exactly if the last look at the local lists,
      in the same iteration, found some to use as they are. A synchronisation always updates. */
  lemma ListsAreUpdatedIff(states: seq<State>, steps: seq<Step>, n: nat) returns (j: nat)
    requires IsRun(states, steps) && n < |states| && (states[n].pc == Installing || states[n].pc == Synced)
    ensures ScannedAt(states, steps, j, n)
    ensures states[n].pc == Installing ==> (UpdatedBetween(steps, j, n) <==> !steps[j].containFiles)
    ensures states[n].pc == Synced && !states[n].isInstall ==> UpdatedBetween(steps, j, n)
  {
    RunKeeps(states, steps, n);
    j := LastScan(states, steps, n);
  }

  lemma StartsEmpty(s: State)
    ensures Initial(s) ==> s.install.None?
  {}

  lemma HasPackage(s: State)
    requires Inv(s) && s.install.Some?
    ensures s.package.Some?
  {}

  lemma InstallAppears(s: State, step: Step)
    requires Enabled(s, step) && Next(s, step).install.Some?
    ensures var r := Next(s, step);
      if s.install.Some? then r.package == s.package && r.accepted == s.accepted
      else !Job(s) && r.package.Some? && step == Install(r.package.value, true) && r.accepted == s.accepted + 1
  {
    hide FirstSlot, Deliver, DoWorkStep;
    match step
    case Install(p, initOk) => DoWorkSets(s, Some(p), initOk);
    case Synchronize(initOk) => DoWorkSets(s, None, initOk);
    case _ =>
  }

  lemma DoWorkSets(s: State, job: Option<string>, initOk: bool)
    ensures var r := DoWorkStep(s, job, initOk);
      && (Job(s) ==> r == s)
      && (!Job(s) && initOk ==> r.accepted == s.accepted + 1 && (r.install.Some? <==> job.Some?)
                                && (job.Some? ==> r.package == job))
      && (!Job(s) && !initOk ==> r.install.None?)
  {}

  /** The package in progress is the one asked for by the last accepted installation, and nothing was accepted since. */
  lemma {:induction false} PackageIsTheOneAskedFor(states: seq<State>, steps: seq<Step>, n: nat) returns (j: nat)
    requires IsRun(states, steps) && n < |states| && states[n].install.Some?
    ensures j < n && states[n].package.Some? && steps[j] == Install(states[n].package.value, true)
    ensures !Job(states[j]) && forall i :: j < i <= n ==> states[i].accepted == states[j].accepted + 1
  {
    hide Next, Inv, Enabled;
    RunKeeps(states, steps, n);
    StartsEmpty(states[0]);
    InstallAppears(states[n - 1], steps[n - 1]);
    HasPackage(states[n]);
    if states[n - 1].install.Some? {
      j := PackageIsTheOneAskedFor(states, steps, n - 1);
    } else {
      j := n - 1;
    }
  }
}

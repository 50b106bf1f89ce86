/** Runs that go wrong: how the states that the theorems call bad are reached. */
module MaintenanceFailures {
  import opened Wrappers
  import opened TaskStatus
  import opened MaintenanceHistory
  import opened MaintenanceCycle
  import opened MaintenanceSafety
  import opened MaintenanceTheorems
  import opened MaintenanceWaits
  import opened MaintenanceJoin

  lemma Continue(states: seq<State>, steps: seq<Step>, step: Step)
    requires IsRun(states, steps) && Enabled(states[|steps|], step)
    ensures IsRun(states + [Next(states[|steps|], step)], steps + [step])
  {}

  /** Bootup whose thread cannot be created leaves a device that is ready for a start. */
  lemma FailedBoot(s: State) returns (states: seq<State>, steps: seq<Step>)
    requires Init(s)
    ensures IsRun(states, steps) && states[0] == s
    ensures var r := states[|steps|];
      && Inv(r) && r.mutex == Free && r.threads == s.threads && r.boot == BootDone && r.cfg == s.cfg
      && r.notify == Error && r.unsolicitedComplete && !r.abort && r.timer == s.timer && r.inFlight == {}
  {
    hide Story, WorkerOk;
    states, steps := [s], [];
    var boot := [BootReset, BootIdle, BootSpawn(false), BootFail];
    for i := 0 to 4
      invariant |steps| == i && IsRun(states, steps) && states[0] == s
      invariant states[i].mutex == Free && states[i].threads == s.threads && states[i].cfg == s.cfg
      invariant states[i].boot == [AtReset, AtIdle, AtSpawn, AtFail, BootDone][i]
      invariant !states[i].abort && states[i].timer == s.timer && states[i].inFlight == {}
      invariant i == 4 ==> states[i].notify == Error && states[i].unsolicitedComplete
    {
      Continue(states, steps, boot[i]);
      states, steps := states + [Next(states[i], boot[i])], steps + [boot[i]];
    }
    RunKeeps(states, steps, 4);
  }

  // ---- Two quick starts ----

  /** A start that comes before the worker of an earlier start has announced itself waits for that worker for ever. */
  lemma SecondStartIsDoomed(s: State)
    requires Inv(s) && s.mutex == Free && s.notify != Started && s.unsolicitedComplete && s.threads.live == map[]
    ensures var s1 := StartStep(s);
      s1.mutex.StartJoining? && JoinReady(s1) &&
      var s2 := StartJoinedStep(s1, true);
      s2.mutex == Free && Doomed(StartStep(s2))
  {
    var s2 := StartJoinedStep(StartStep(s), true);
    assert s2.threads.live == map[s.threads.nextId := NEW_WORKER];
    assert s.threads.nextId in StartStep(s2).threads.live;
  }

  /** The deadlock is reachable from every initial state: bootup whose thread cannot be created, then two starts in a
      row. */
  lemma DeadlockIsReachable(s: State) returns (states: seq<State>, steps: seq<Step>)
    requires Init(s)
    ensures IsRun(states, steps) && states[0] == s && Doomed(states[|steps|])
  {
    hide Doomed, Inv, StartStep, StartJoinedStep;
    states, steps := FailedBoot(s);
    var r := states[|steps|];
    SecondStartIsDoomed(r);
    var s1 := StartStep(r);
    var s2 := StartJoinedStep(s1, true);
    Continue(states, steps, StartRequest);
    states, steps := states + [s1], steps + [StartRequest];
    Continue(states, steps, StartJoined(true));
    states, steps := states + [s2], steps + [StartJoined(true)];
    Continue(states, steps, StartRequest);
    states, steps := states + [StartStep(s2)], steps + [StartRequest];
  }

  // ---- stopMaintenance on an offline device ----

  const OFFLINE := WorkerInput(Probe(Activated, false, true), false, false, false)

  /** The boot cycle has its worker. */
  lemma FirstWorker(s: State) returns (states: seq<State>, steps: seq<Step>)
    requires Init(s)
    ensures IsRun(states, steps) && states[0] == s
    ensures var r := states[|steps|];
      && Inv(r) && r.mutex == Free && r.threads == AddWorker(s.threads) && r.boot == BootDone && r.cfg == s.cfg
      && r.notify == Idle && r.kind == UnsolicitedMaintenance
  {
    hide WorkerOk;
    states, steps := [s], [];
    var boot := [BootReset, BootIdle, BootSpawn(true)];
    for i := 0 to 3
      invariant |steps| == i && IsRun(states, steps) && states[0] == s
      invariant states[i].mutex == Free && states[i].cfg == s.cfg && states[i].notify == Idle
      invariant states[i].boot == [AtReset, AtIdle, AtSpawn, BootDone][i]
      invariant states[i].threads == if i < 3 then s.threads else AddWorker(s.threads)
      invariant i > 0 ==> states[i].kind == UnsolicitedMaintenance
    {
      Continue(states, steps, boot[i]);
      states, steps := states + [Next(states[i], boot[i])], steps + [boot[i]];
    }
    RunKeeps(states, steps, 3);
  }

  lemma OfflineWorker(s: State, id: nat) returns (s1: State, s2: State, s3: State)
    requires id in s.threads.live && s.threads.live[id] == NEW_WORKER && s.mutex == Free
    requires s.kind == UnsolicitedMaintenance && !s.cfg.whoAmI
    ensures Enabled(s, WorkerStep(id, OFFLINE)) && s1 == Next(s, WorkerStep(id, OFFLINE))
    ensures Enabled(s1, WorkerStep(id, OFFLINE)) && s2 == Next(s1, WorkerStep(id, OFFLINE))
    ensures Enabled(s2, WorkerStep(id, OFFLINE)) && s3 == Next(s2, WorkerStep(id, OFFLINE))
    ensures id in s3.threads.live && s3.threads.live[id].pc == NoNetwork && s3.mutex == Free && s3.notify == Started
  {
    var w := NEW_WORKER;
    s1 := Put(EnterStep(s, w), id);
    s2 := Put(AnnounceStep(s1, s1.threads.live[id]), id);
    s3 := Put(ProbeStep(s2, s2.threads.live[id], OFFLINE.probe), id);
  }

  /** The first cycle of a boot, on a device without WhoAmI support: three steps of the worker on a device without a
      network, then a stop, which waits for ever for the worker that wants to report the missing network. */
  lemma OfflineStopIsDoomed(s: State) returns (states: seq<State>, steps: seq<Step>)
    requires Init(s) && !s.cfg.whoAmI
    ensures IsRun(states, steps) && states[0] == s
    ensures Doomed(states[|steps|]) && states[|steps|].mutex == StopJoining
  {
    hide Inv, WorkerNext, WorkerEnabled;
    var id := s.threads.nextId;
    states, steps := FirstWorker(s);
    var s1, s2, s3 := OfflineWorker(states[|steps|], id);
    hide Next, Enabled;
    Continue(states, steps, WorkerStep(id, OFFLINE));
    states, steps := states + [s1], steps + [WorkerStep(id, OFFLINE)];
    Continue(states, steps, WorkerStep(id, OFFLINE));
    states, steps := states + [s2], steps + [WorkerStep(id, OFFLINE)];
    Continue(states, steps, WorkerStep(id, OFFLINE));
    states, steps := states + [s3], steps + [WorkerStep(id, OFFLINE)];
    StopWaits(s3, id);
    Continue(states, steps, StopRequest(false, true));
    states, steps := states + [StopStep(s3, false, true)], steps + [StopRequest(false, true)];
  }

  lemma StopWaits(s: State, id: nat)
    requires id in s.threads.live && s.threads.live[id].pc == NoNetwork && s.mutex == Free && s.notify == Started
    ensures Enabled(s, StopRequest(false, true)) && Next(s, StopRequest(false, true)) == StopStep(s, false, true)
    ensures Doomed(StopStep(s, false, true)) && StopStep(s, false, true).mutex == StopJoining
  {
    assert WillNeedMutex(StopStep(s, false, true).threads.live[id].pc);
  }

  // ---- A cycle that no one ends ----

  /** Online, and no timer can be created: no job can be launched. */
  const NO_TIMER := WorkerInput(Probe(Activated, true, true), false, false, false)

  /** The only worker, with nobody else in the way. */
  predicate Alone(s: State, id: nat) {
    && id in s.threads.live && s.threads.live == map[id := s.threads.live[id]]
    && s.mutex == Free && !s.abort && !s.timer.created
  }

  predicate Idling(s: State, id: nat, i: nat) {
    && Alone(s, id) && s.notify == Started
    && var w := s.threads.live[id];
       w.pc == LoopTest && w.tasks == [RFC, SWUPDATE, LOGUPLOAD] && w.i == i && w.retry == TASK_RETRY_COUNT
  }

  /** A worker's steps with the same outcomes of its calls. */
  ghost predicate WorkerRun(s: State, id: nat, in_: WorkerInput, n: nat, r: State)
    decreases n
  {
    if n == 0 then r == s
    else
      && id in s.threads.live && WorkerEnabled(s, s.threads.live[id])
      && WorkerRun(WorkerNext(s, id, in_), id, in_, n - 1, r)
  }

  lemma {:induction false} RunOn(states: seq<State>, steps: seq<Step>, id: nat, in_: WorkerInput, n: nat, r: State)
    returns (more: seq<State>, moreSteps: seq<Step>)
    requires IsRun(states, steps) && WorkerRun(states[|steps|], id, in_, n, r)
    ensures |more| == |moreSteps| + 1 && IsRun(more, moreSteps) && more[0] == states[0] && more[|moreSteps|] == r
    decreases n
  {
    hide WorkerNext, WorkerEnabled;
    if n == 0 {
      more, moreSteps := states, steps;
    } else {
      var step := WorkerStep(id, in_);
      Continue(states, steps, step);
      more, moreSteps := RunOn(states + [Next(states[|steps|], step)], steps + [step], id, in_, n - 1, r);
    }
  }

  lemma {:induction false} RunsJoin(s: State, id: nat, in_: WorkerInput, m: nat, q: State, n: nat, r: State)
    requires WorkerRun(s, id, in_, m, q) && WorkerRun(q, id, in_, n, r)
    ensures WorkerRun(s, id, in_, m + n, r)
    decreases m
  {
    hide WorkerNext, WorkerEnabled;
    if m > 0 {
      RunsJoin(WorkerNext(s, id, in_), id, in_, m - 1, q, n, r);
    }
  }

  lemma OneStep(s: State, id: nat, in_: WorkerInput)
    requires id in s.threads.live && WorkerEnabled(s, s.threads.live[id])
    ensures WorkerRun(s, id, in_, 1, WorkerNext(s, id, in_))
  {
    hide WorkerNext, WorkerEnabled;
    assert WorkerRun(WorkerNext(s, id, in_), id, in_, 0, WorkerNext(s, id, in_));
  }

  /** A solicited worker announces itself, */
  lemma Announces(s: State, id: nat) returns (r: State)
    requires Alone(s, id) && s.threads.live[id] == NEW_WORKER && s.kind == SolicitedMaintenance
    ensures WorkerRun(s, id, NO_TIMER, 2, r) && Alone(r, id) && r.notify == Started && r.kind == SolicitedMaintenance
    ensures r.threads.live[id] == NEW_WORKER.(pc := Probing) && r.status == s.status && r.inFlight == s.inFlight
  {
    hide WorkerRun;
    var s1 := Put(EnterStep(s, NEW_WORKER), id);
    r := Put(AnnounceStep(s1, s1.threads.live[id]), id);
    OneStep(s, id, NO_TIMER);
    OneStep(s1, id, NO_TIMER);
    RunsJoin(s, id, NO_TIMER, 1, s1, 1, r);
  }

  /** and gets to the head of its loop. */
  lemma ToTheLoop(s: State, id: nat) returns (r: State)
    requires Alone(s, id) && s.notify == Started && s.kind == SolicitedMaintenance
    requires s.threads.live[id] == NEW_WORKER.(pc := Probing)
    ensures WorkerRun(s, id, NO_TIMER, 2, r) && Idling(r, id, 0) && r.status == s.status && r.inFlight == s.inFlight
  {
    hide WorkerRun;
    var s1 := Put(ProbeStep(s, s.threads.live[id], NO_TIMER.probe), id);
    r := Put(PlanStep(s1, s1.threads.live[id]), id);
    OneStep(s, id, NO_TIMER);
    OneStep(s1, id, NO_TIMER);
    RunsJoin(s, id, NO_TIMER, 1, s1, 1, r);
  }

  /** A job whose timer cannot be started is given up. */
  lemma GivesUp(s: State, id: nat, i: nat) returns (r: State)
    requires Idling(s, id, i) && i < 3
    ensures WorkerRun(s, id, NO_TIMER, 3, r) && Idling(r, id, i + 1)
  {
    hide WorkerRun;
    var s1 := Put(TestStep(s, s.threads.live[id]), id);
    var s2 := Put(BodyStep(s1, s1.threads.live[id], NO_TIMER), id);
    r := Put(LaunchFailureStep(s2, s2.threads.live[id], false), id);
    assert s1.threads.live[id].pc == Body && s2.threads.live[id].pc == LaunchFailure;
    OneStep(s, id, NO_TIMER);
    OneStep(s1, id, NO_TIMER);
    OneStep(s2, id, NO_TIMER);
    RunsJoin(s, id, NO_TIMER, 1, s1, 1, s2);
    RunsJoin(s, id, NO_TIMER, 2, s2, 1, r);
  }

  lemma LeavesTheLoop(s: State, id: nat) returns (r: State)
    requires Idling(s, id, 3)
    ensures WorkerRun(s, id, NO_TIMER, 2, r) && Orphaned(r)
  {
    hide WorkerRun;
    var s1 := Put(TestStep(s, s.threads.live[id]), id);
    r := Remove(FinishReturn(s1, false), id);
    assert s1.threads.live[id].pc == Finish;
    OneStep(s, id, NO_TIMER);
    OneStep(s1, id, NO_TIMER);
    RunsJoin(s, id, NO_TIMER, 1, s1, 1, r);
  }

  /** A cycle whose worker is at the head of its loop: bootup without a thread, and a start. */
  lemma InTheLoop(s: State) returns (states: seq<State>, steps: seq<Step>, id: nat)
    requires Init(s)
    ensures |states| == |steps| + 1 && IsRun(states, steps) && states[0] == s && Idling(states[|steps|], id, 0)
    ensures states[|steps|].status == 0 && states[|steps|].inFlight == {}
  {
    hide Inv, Idling, WorkerRun;
    states, steps := FailedBoot(s);
    var r := states[|steps|];
    var s1 := StartStep(r);
    var s2 := StartJoinedStep(s1, true);
    id := s.threads.nextId;
    assert Alone(s2, id) && s2.threads.live[id] == NEW_WORKER && s2.status == 0 && s2.inFlight == {};
    Continue(states, steps, StartRequest);
    states, steps := states + [s1], steps + [StartRequest];
    Continue(states, steps, StartJoined(true));
    states, steps := states + [s2], steps + [StartJoined(true)];
    hide Alone, IsRun;
    var s3 := Announces(s2, id);
    states, steps := RunOn(states, steps, id, NO_TIMER, 2, s3);
    var s4 := ToTheLoop(s3, id);
    states, steps := RunOn(states, steps, id, NO_TIMER, 2, s4);
  }

  /** Every initial state has a run to a cycle that has lost its worker and stays STARTED: a worker that can start no
      timer gives every job up. */
  lemma OrphanedIsReachable(s: State) returns (states: seq<State>, steps: seq<Step>)
    requires Init(s)
    ensures IsRun(states, steps) && states[0] == s && Orphaned(states[|steps|]) && Inv(states[|steps|])
  {
    hide Inv, Idling, WorkerRun, Orphaned, IsRun;
    var id: nat;
    states, steps, id := InTheLoop(s);
    var q1 := GivesUp(states[|steps|], id, 0);
    states, steps := RunOn(states, steps, id, NO_TIMER, 3, q1);
    var q2 := GivesUp(q1, id, 1);
    states, steps := RunOn(states, steps, id, NO_TIMER, 3, q2);
    var q3 := GivesUp(q2, id, 2);
    states, steps := RunOn(states, steps, id, NO_TIMER, 3, q3);
    var q4 := LeavesTheLoop(q3, id);
    states, steps := RunOn(states, steps, id, NO_TIMER, 2, q4);
    RunEnds(states, steps);
  }

  lemma RunEnds(states: seq<State>, steps: seq<Step>)
    requires IsRun(states, steps)
    ensures Inv(states[|steps|]) && WaitInv(states[|steps|])
  {
    RunKeeps(states, steps, |steps|);
    RunKeepsWaits(states, steps, |steps|);
  }

  // ---- Events that arrive one after the other ----

  /** The jobs that the status word calls complete, and successful. */
  ghost predicate Marks(v: bv16, completed: set<Task>, succeeded: set<Task>) {
    && WellFormed(v)
    && forall t: Task :: (Completed(v, t) <==> t in completed) && (Succeeded(v, t) <==> t in succeeded)
  }

  const ALL_TASKS: set<Task> := {RFC, SWUPDATE, LOGUPLOAD}

  lemma MarksVerdict(v: bv16, completed: set<Task>, succeeded: set<Task>)
    requires Marks(v, completed, succeeded)
    ensures ALL_TASKS <= succeeded ==> Verdict(v) == Some(Complete)
    ensures ALL_TASKS <= completed && !(ALL_TASKS <= succeeded) ==> Verdict(v) == Some(Error)
    ensures !(ALL_TASKS <= completed) ==> Verdict(v) == None
  {
    hide Verdict;
    VerdictIsNeverIncomplete(v);
    MasksMeanAllTasks(v);
    VerdictNeedsAll(v);
  }

  lemma VerdictNeedsAll(v: bv16)
    ensures Verdict(v) == None <==> !AllCompleted(v)
  {}

  /** A cycle in progress that takes events. */
  ghost predicate Open(s: State, completed: set<Task>, succeeded: set<Task>, flags: set<Task>) {
    && s.mutex == Free && s.notify == Started && !s.abort && s.inFlight == flags
    && Marks(s.status, completed, succeeded)
  }

  // What an event that is acted upon makes of the marks and of the flags.
  function CompletedBy(e: ModuleEvent, c: set<Task>): set<Task> {
    match e
    case Done(t) => c + {t}
    case Failed(t) => c + {t}
    case FirmwareAborted => c + {SWUPDATE}
    case _ => c
  }

  function SucceededBy(e: ModuleEvent, d: set<Task>): set<Task> {
    if e.Done? then d + {e.task} else d
  }

  function FlagsBy(e: ModuleEvent, f: set<Task>): set<Task> {
    match e
    case Done(t) => f - {t}
    case InProgress(t) => f + {t}
    case FirmwareAborted => f - {SWUPDATE}
    case _ => f
  }

  predicate ActedUpon(e: ModuleEvent, f: set<Task>) {
    match e
    case Done(t) => t in f
    case Failed(t) => t in f
    case InProgress(_) | FirmwareAborted => true
    case _ => false
  }

  lemma EventMarks(s: State, e: ModuleEvent, c: set<Task>, d: set<Task>, f: set<Task>)
    requires Open(s, c, d, f) && ActedUpon(e, f)
    ensures Open(ApplyEvent(s, e), CompletedBy(e, c), SucceededBy(e, d), FlagsBy(e, f))
    ensures e == FirmwareAborted ==> CheckStatus(ApplyEvent(s, e).status, TASK_SKIPPED)
  {
    hide SetStatus, WellFormed, Completed, Succeeded;
    match e
    case Done(t) => RecordSuccess(s.status, t);
    case Failed(t) =>
      RecordComplete(s.status, t);
      assert f + {t} == f;
    case FirmwareAborted =>
      RecordOther(s.status, TASK_SKIPPED);
      RecordComplete(SetStatus(s.status, TASK_SKIPPED), SWUPDATE);
      StaysSkipped(s.status);
    case InProgress(_) =>
  }

  lemma StaysSkipped(v: bv16)
    ensures CheckStatus(SetStatus(SetStatus(v, TASK_SKIPPED), CompleteBit(SWUPDATE)), TASK_SKIPPED)
  {}

  lemma AppliedFrame(s: State, e: ModuleEvent)
    ensures var r := ApplyEvent(s, e); r.threads == s.threads && r.current == s.current
  {
    hide SetStatus;
  }

  /** The handler as far as its verdict; `c` and `d` are the marks after the event. */
  lemma EventOpens(s: State, e: ModuleEvent, c: set<Task>, d: set<Task>, f: set<Task>)
    requires s.mutex == Free && s.notify == Started && !s.abort && Open(ApplyEvent(s, e), c, d, f)
    ensures var r := EventStep(s, e);
      && r.threads == s.threads && r.current == s.current && r.status == ApplyEvent(s, e).status && r.inFlight == f
      && (!(ALL_TASKS <= c) ==> Open(r, c, d, f))
      && (ALL_TASKS <= d ==> r.mutex == HandlerJoining(Complete))
      && (ALL_TASKS <= c && !(ALL_TASKS <= d) ==> r.mutex == HandlerJoining(Error) && Verdict(r.status) == Some(Error))
  {
    hide Marks, Verdict, ApplyEvent;
    AppliedFrame(s, e);
    MarksVerdict(ApplyEvent(s, e).status, c, d);
  }

  lemma NoMarks()
    ensures Marks(0, {}, {})
  {}

  /** One event more. */
  lemma TakeEvent(states: seq<State>, steps: seq<Step>, e: ModuleEvent, c: set<Task>, d: set<Task>, f: set<Task>)
    returns (more: seq<State>, moreSteps: seq<Step>)
    requires IsRun(states, steps) && Open(states[|steps|], c, d, f) && ActedUpon(e, f)
    ensures |more| == |moreSteps| + 1 && IsRun(more, moreSteps) && more[0] == states[0]
    ensures moreSteps == steps + [Event(e)]
    ensures var q, r := states[|steps|], more[|moreSteps|];
      var c', d', f' := CompletedBy(e, c), SucceededBy(e, d), FlagsBy(e, f);
      && r.threads == q.threads && r.current == q.current && r.inFlight == f'
      && (e == FirmwareAborted ==> CheckStatus(r.status, TASK_SKIPPED))
      && (!(ALL_TASKS <= c') ==> Open(r, c', d', f'))
      && (ALL_TASKS <= d' ==> r.mutex == HandlerJoining(Complete))
      && (ALL_TASKS <= c' && !(ALL_TASKS <= d') ==>
            r.mutex == HandlerJoining(Error) && Verdict(r.status) == Some(Error))
  {
    hide Marks, EventStep, ApplyEvent, Verdict, CompletedBy, SucceededBy, FlagsBy, ActedUpon, CheckStatus;
    var q := states[|steps|];
    EventMarks(q, e, c, d, f);
    EventOpens(q, e, CompletedBy(e, c), SucceededBy(e, d), FlagsBy(e, f));
    Continue(states, steps, Event(e));
    more, moreSteps := states + [EventStep(q, e)], steps + [Event(e)];
  }

  /** Every initial state has a run in which RFC reports an error and then completion, and the cycle is judged
      COMPLETE. */
  lemma ErrorThenCompleteIsReachable(s: State) returns (states: seq<State>, steps: seq<Step>)
    requires Init(s)
    ensures IsRun(states, steps) && states[0] == s && Event(Failed(RFC)) in steps
    ensures states[|steps|].mutex == HandlerJoining(Complete)
  {
    hide Inv, Idling, Marks, IsRun;
    var id: nat;
    states, steps, id := InTheLoop(s);
    OpensInTheLoop(states[|steps|], id);
    hide Open;
    states, steps := TakeEvent(states, steps, InProgress(RFC), {}, {}, {});
    states, steps := TakeEvent(states, steps, InProgress(SWUPDATE), {}, {}, {RFC});
    states, steps := TakeEvent(states, steps, InProgress(LOGUPLOAD), {}, {}, {RFC, SWUPDATE});
    states, steps := TakeEvent(states, steps, Failed(RFC), {}, {}, {RFC, SWUPDATE, LOGUPLOAD});
    states, steps := TakeEvent(states, steps, Done(RFC), {RFC}, {}, {RFC, SWUPDATE, LOGUPLOAD});
    assert {RFC, SWUPDATE, LOGUPLOAD} - {RFC} == {SWUPDATE, LOGUPLOAD};
    states, steps := TakeEvent(states, steps, Done(SWUPDATE), {RFC}, {RFC}, {SWUPDATE, LOGUPLOAD});
    assert {SWUPDATE, LOGUPLOAD} - {SWUPDATE} == {LOGUPLOAD};
    states, steps := TakeEvent(states, steps, Done(LOGUPLOAD), {RFC, SWUPDATE}, {RFC, SWUPDATE}, {LOGUPLOAD});
  }

  lemma OpensInTheLoop(s: State, id: nat)
    requires Idling(s, id, 0) && s.status == 0 && s.inFlight == {}
    ensures Open(s, {}, {}, {})
  {
    hide Marks;
    NoMarks();
  }

  /** Every initial state has a run that is judged an ERROR although its only failure is a firmware update that was
      skipped; with the mask of the bit that is really set it would be judged INCOMPLETE. */
  lemma SkippedCycleIsReachable(s: State) returns (states: seq<State>, steps: seq<Step>)
    requires Init(s)
    ensures IsRun(states, steps) && states[0] == s
    ensures states[|steps|].mutex == HandlerJoining(Error)
    ensures VerdictWith(states[|steps|].status, TASK_SKIPPED) == Some(Incomplete)
  {
    hide Inv, Idling, Marks, IsRun;
    var id: nat;
    states, steps, id := InTheLoop(s);
    OpensInTheLoop(states[|steps|], id);
    hide Open;
    states, steps := TakeEvent(states, steps, InProgress(RFC), {}, {}, {});
    states, steps := TakeEvent(states, steps, InProgress(LOGUPLOAD), {}, {}, {RFC});
    states, steps := TakeEvent(states, steps, Done(RFC), {}, {}, {RFC, LOGUPLOAD});
    states, steps := TakeEvent(states, steps, Done(LOGUPLOAD), {RFC}, {RFC}, {LOGUPLOAD});
    states, steps := TakeEvent(states, steps, FirmwareAborted, {RFC, LOGUPLOAD}, {RFC, LOGUPLOAD}, {});
    JudgedAsError(states[|steps|].status);
  }

  lemma JudgedAsError(v: bv16)
    requires Verdict(v) == Some(Error) && CheckStatus(v, TASK_SKIPPED)
    ensures VerdictWith(v, TASK_SKIPPED) == Some(Incomplete)
  {
    assert v & 0x80 != 0 ==> v & 0x80 == 0x80;
  }

  // ---- Notifications that come too early ----

  /** Outcomes of a worker that starts its timer and its job. */
  const WORKING := WorkerInput(Probe(Activated, true, true), true, true, true)

  /** Inside system(), for the first job. */
  ghost predicate Busy(s: State, id: nat) {
    && id in s.threads.live && s.threads.live[id].pc == Launching && s.current == Some(RFC)
    && s.threads.live[id].i < |s.threads.live[id].tasks|
    && Open(s, {}, {}, {RFC})
  }

  lemma GetsBusy(s: State, id: nat) returns (r: State)
    requires Idling(s, id, 0) && s.status == 0 && s.inFlight == {}
    ensures WorkerRun(s, id, WORKING, 3, r) && Busy(r, id)
  {
    hide WorkerRun, Marks;
    NoMarks();
    var s1 := Put(TestStep(s, s.threads.live[id]), id);
    var s2 := Put(BodyStep(s1, s1.threads.live[id], WORKING), id);
    r := Put(LaunchStep(s2, s2.threads.live[id]), id);
    assert s1.threads.live[id].pc == Body && s2.threads.live[id].pc == Launch;
    OneStep(s, id, WORKING);
    OneStep(s1, id, WORKING);
    OneStep(s2, id, WORKING);
    RunsJoin(s, id, WORKING, 1, s1, 1, s2);
    RunsJoin(s, id, WORKING, 2, s2, 1, r);
  }

  /** The job has been launched, and the wait begins after the last notification. */
  lemma BeginsToWait(s: State, id: nat) returns (r: State)
    requires id in s.threads.live && s.threads.live[id].pc == Launching && s.mutex != Free && s.current == Some(RFC)
    requires RFC !in s.inFlight || (!s.timer.armed && !s.timer.alarm)
    requires s.threads.live[id].i < |s.threads.live[id].tasks|
    ensures WorkerRun(s, id, WORKING, 1, r) && WaitsInVain(r) && r.mutex == s.mutex
  {
    OneStep(s, id, WORKING);
    r := Put(LaunchedStep(s, s.threads.live[id], true), id);
    assert r.threads.live[id].pc == Waiting;
  }

  /** Every initial state has a run to a verdict of COMPLETE that is never broadcast: the events of all three jobs come
      while the worker is still inside system(), and the notification with them. */
  lemma LostVerdictIsReachable(s: State) returns (states: seq<State>, steps: seq<Step>)
    requires Init(s)
    ensures IsRun(states, steps) && states[0] == s
    ensures states[|steps|].mutex == HandlerJoining(Complete) && WaitsInVain(states[|steps|])
    ensures Inv(states[|steps|]) && WaitInv(states[|steps|]) && !Doomed(states[|steps|])
  {
    hide Inv, WaitInv, Idling, Marks, IsRun, WorkerRun, WaitsInVain, Doomed;
    var id: nat;
    states, steps, id := InTheLoop(s);
    var q := GetsBusy(states[|steps|], id);
    states, steps := RunOn(states, steps, id, WORKING, 3, q);
    hide Open;
    states, steps := TakeEvent(states, steps, InProgress(SWUPDATE), {}, {}, {RFC});
    states, steps := TakeEvent(states, steps, InProgress(LOGUPLOAD), {}, {}, {RFC, SWUPDATE});
    states, steps := TakeEvent(states, steps, Done(RFC), {}, {}, {RFC, SWUPDATE, LOGUPLOAD});
    assert {RFC, SWUPDATE, LOGUPLOAD} - {RFC} == {SWUPDATE, LOGUPLOAD};
    assert CompletedBy(Done(RFC), {}) == {RFC} == SucceededBy(Done(RFC), {});
    states, steps := TakeEvent(states, steps, Done(SWUPDATE), {RFC}, {RFC}, {SWUPDATE, LOGUPLOAD});
    assert {SWUPDATE, LOGUPLOAD} - {SWUPDATE} == {LOGUPLOAD};
    states, steps := TakeEvent(states, steps, Done(LOGUPLOAD), {RFC, SWUPDATE}, {RFC, SWUPDATE}, {LOGUPLOAD});
    var r := BeginsToWait(states[|steps|], id);
    states, steps := RunOn(states, steps, id, WORKING, 1, r);
    RunEnds(states, steps);
    VainIsNotDoomed(r);
  }

  /** Every initial state has a run to a stop that never returns: it comes while the worker is inside system(), disarms
      the timer, and its notification is lost. */
  lemma LostStopIsReachable(s: State) returns (states: seq<State>, steps: seq<Step>)
    requires Init(s)
    ensures IsRun(states, steps) && states[0] == s
    ensures states[|steps|].mutex == StopJoining && WaitsInVain(states[|steps|])
    ensures Inv(states[|steps|]) && WaitInv(states[|steps|]) && !Doomed(states[|steps|])
  {
    hide Inv, WaitInv, Idling, Marks, IsRun, WorkerRun, WaitsInVain, Doomed;
    var id: nat;
    states, steps, id := InTheLoop(s);
    var q := GetsBusy(states[|steps|], id);
    states, steps := RunOn(states, steps, id, WORKING, 3, q);
    var stop := StopRequest(true, true);
    Continue(states, steps, stop);
    states, steps := states + [StopStep(q, true, true)], steps + [stop];
    var r := BeginsToWait(states[|steps|], id);
    states, steps := RunOn(states, steps, id, WORKING, 1, r);
    RunEnds(states, steps);
    VainIsNotDoomed(r);
  }

  lemma VainIsNotDoomed(s: State)
    requires Inv(s) && WaitsInVain(s)
    ensures !Doomed(s)
  {
    hide Story, WorkerOk, AlarmHelps;
    var id :| id in s.threads.live && s.threads.live[id].pc == Waiting;
    assert s.threads.handle == Some(id);
  }
}

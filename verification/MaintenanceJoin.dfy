/** The join made under `m_statusMutex`: exactly when it can return, and what happens when it cannot. */
module MaintenanceJoin {
  import opened Wrappers
  import opened TaskStatus
  import opened MaintenanceHistory
  import opened MaintenanceCycle
  import opened MaintenanceSafety
  import opened MaintenanceTheorems
  import opened MaintenanceWaits

  /** The worker will ask for the mutex before it returns, whatever it is told. */
  predicate WillNeedMutex(pc: Pc) { pc == Enter || NeedsMutex(pc) }

  /** A join is pending on a worker that needs the mutex its joiner holds. */
  ghost predicate Doomed(s: State) {
    && s.mutex != Free
    && exists id :: id in s.threads.live && WillNeedMutex(s.threads.live[id].pc)
  }

  lemma OthersWaitForTheMutex(s: State, step: Step)
    requires Enabled(s, step) && s.mutex != Free && !JoinReady(s) && BootOk(s) && !step.WorkerStep?
    ensures var r := Next(s, step);
      r.threads == s.threads && r.mutex == s.mutex && r.notify == s.notify
  {
    hide WorkerNext, EventStep, StartStep, StopStep, Spawn;
  }

  lemma DoomedStep(s: State, step: Step)
    requires Inv(s) && Doomed(s) && Enabled(s, step)
    ensures var r := Next(s, step);
      Doomed(r) && r.mutex == s.mutex && r.notify == s.notify && !JoinReady(s)
  {
    hide Story, WorkerOk;
    var id :| id in s.threads.live && WillNeedMutex(s.threads.live[id].pc);
    assert s.threads.handle == Some(id);
    if step.WorkerStep? {
      assert step.id == id && s.threads.live[id].pc == Enter;
      var r := Next(s, step);
      assert r == Put(EnterStep(s, s.threads.live[id]), id);
      assert r.threads.live[id].pc in {Announce, Probing};
      EntersToAnnounce(s, id);
    } else {
      OthersWaitForTheMutex(s, step);
    }
  }

  /** While a join is pending, a worker that has just started is one that announces itself early. */
  lemma EntersToAnnounce(s: State, id: nat)
    requires Inv(s) && s.mutex != Free && id in s.threads.live && s.threads.live[id].pc == Enter
    ensures EnterStep(s, s.threads.live[id]).1.pc == Announce
  {
    assert WorkerOk(s, s.threads.live[id]);
  }

  /** Deadlock: from then on the mutex is never released, no status is broadcast, and no start, stop or event gets
      in. */
  lemma {:induction false} DoomedForever(states: seq<State>, steps: seq<Step>, k: nat)
    requires IsExecution(states, steps) && Inv(states[0]) && Doomed(states[0]) && k < |states|
    ensures Doomed(states[k]) && states[k].mutex == states[0].mutex && states[k].notify == states[0].notify
    ensures !JoinReady(states[k])
  {
    if k > 0 {
      DoomedForever(states, steps, k - 1);
      ExecutionKeeps(states, steps, k - 1);
      DoomedStep(states[k - 1], steps[k - 1]);
    }
    var s := states[k];
    ExecutionKeeps(states, steps, k);
    var id :| id in s.threads.live && WillNeedMutex(s.threads.live[id].pc);
    assert s.threads.handle == Some(id);
  }

  // ---- A worker that waits for a notification sent too early ----

  /** The timer can still wake the worker: it is armed, or its signal is pending, and the handler would accept it. */
  predicate AlarmHelps(s: State) {
    (s.timer.armed || s.timer.alarm) && s.current.Some? && s.current.value in s.inFlight
  }

  /** A join is pending on a worker that waits and was not notified since. */
  ghost predicate WaitsInVain(s: State) {
    && s.mutex != Free && !s.signals.woken && !AlarmHelps(s)
    && exists id :: id in s.threads.live && s.threads.live[id].pc == Waiting
  }

  lemma NobodyNotifies(s: State, step: Step)
    requires Enabled(s, step) && s.mutex != Free && !JoinReady(s) && BootOk(s) && !step.WorkerStep?
    requires !step.SpuriousWake?
    requires !s.signals.listenContext && !s.signals.woken && !AlarmHelps(s)
    ensures !Next(s, step).signals.woken && !AlarmHelps(Next(s, step))
  {
    hide WorkerNext, EventStep, StartStep, StopStep, Spawn;
  }

  lemma VainStep(s: State, step: Step)
    requires Inv(s) && WaitInv(s) && WaitsInVain(s) && Enabled(s, step) && !step.SpuriousWake?
    ensures var r := Next(s, step);
      WaitsInVain(r) && r.mutex == s.mutex && r.notify == s.notify && !JoinReady(s)
  {
    hide Story, WorkerOk, AlarmHelps, WorkerNext;
    var id :| id in s.threads.live && s.threads.live[id].pc == Waiting;
    assert s.threads.handle == Some(id);
    if !step.WorkerStep? {
      assert !s.signals.listenContext;
      NobodyNotifies(s, step);
      OthersWaitForTheMutex(s, step);
    }
  }

  /** Deadlock: without a spurious wake-up nothing ever ends such a join. */
  lemma {:induction false} InVainForever(states: seq<State>, steps: seq<Step>, k: nat)
    requires IsExecution(states, steps) && Inv(states[0]) && WaitInv(states[0]) && WaitsInVain(states[0])
    requires k < |states|
    requires forall j :: 0 <= j < |steps| ==> !steps[j].SpuriousWake?
    ensures WaitsInVain(states[k]) && states[k].mutex == states[0].mutex && states[k].notify == states[0].notify
    ensures Inv(states[k]) && WaitInv(states[k])
  {
    hide Inv, WaitInv, WaitsInVain;
    if k > 0 {
      InVainForever(states, steps, k - 1);
      StepKeeps(states[k - 1], steps[k - 1]);
      StepKeepsWaits(states[k - 1], steps[k - 1]);
      VainStep(states[k - 1], steps[k - 1]);
    }
  }

  // ---- When a join can return ----

  /** The pending join can return after at most `n` more steps of anyone, none of them a spurious wake-up. */
  ghost predicate CanReturn(s: State, n: nat)
    decreases n
  {
    || JoinReady(s)
    || (n > 0 && exists step :: Enabled(s, step) && !step.SpuriousWake? && CanReturn(Next(s, step), n - 1))
  }

  lemma OneMore(s: State, step: Step, n: nat)
    requires Enabled(s, step) && !step.SpuriousWake? && CanReturn(Next(s, step), n)
    ensures CanReturn(s, n + 1)
  {}

  function Rank(pc: Pc): nat {
    match pc
    case Probing => 20
    case Plan => 19
    case LoopTest => 5
    case Body => 4
    case Launch => 3
    case Launching => 2
    case LaunchFailure => 1
    case Waiting => 1
    case Finish | NoNetworkTail => 0
    case _ => 30
  }

  /** Outcomes under which a worker makes its way out: online, and no launch succeeds. */
  const WAY_OUT := WorkerInput(Probe(Activated, true, true), false, false, false)

  function Left(w: Worker): nat {
    if w.i < |w.tasks| then |w.tasks| - w.i else 0
  }

  predicate Planning(pc: Pc) { pc == Probing || pc == Plan }

  /** Worker `v` is nearer to its return than `w`. */
  predicate Nearer(v: Worker, w: Worker) {
    if Planning(v.pc) != Planning(w.pc) then Planning(w.pc)
    else if Planning(v.pc) then Rank(v.pc) < Rank(w.pc)
    else if Left(v) != Left(w) then Left(v) < Left(w)
    else if v.retry != w.retry then v.retry < w.retry
    else Rank(v.pc) < Rank(w.pc)
  }

  /** Where a worker stands while someone else waits to join it. */
  predicate OnItsWay(s: State, w: Worker) {
    && (OnTask(w.pc) ==> w.i < |w.tasks|)
    && (w.pc == Probing ==> !w.delay && !LateCycle(s))
    && (w.pc == Waiting ==> s.signals.woken)
    && w.pc != AwaitContext && !WillNeedMutex(w.pc)
  }

  lemma JoinedWorkerIsOnItsWay(s: State, id: nat)
    requires Inv(s) && s.mutex != Free && id in s.threads.live && !WillNeedMutex(s.threads.live[id].pc)
    requires s.threads.live[id].pc == Waiting ==> s.signals.woken
    ensures OnItsWay(s, s.threads.live[id])
  {
    assert WorkerOk(s, s.threads.live[id]);
  }

  /** What one step on the easy way achieves. */
  predicate Progress(s: State, id: nat, r: State)
    requires id in s.threads.live
  {
    && r.threads.live.Keys == s.threads.live.Keys && r.threads.handle == s.threads.handle
    && OnItsWay(r, r.threads.live[id]) && Nearer(r.threads.live[id], s.threads.live[id])
  }

  lemma EasyPut(s: State, id: nat, p: (State, Worker))
    requires id in s.threads.live && p.0.threads == s.threads && p.0.cfg == s.cfg && p.0.kind == s.kind
    requires OnItsWay(p.0, p.1) && Nearer(p.1, s.threads.live[id])
    ensures Progress(s, id, Put(p, id))
  {}

  lemma EasyPlanning(s: State, id: nat)
    requires id in s.threads.live && OnItsWay(s, s.threads.live[id]) && Planning(s.threads.live[id].pc)
    ensures WorkerEnabled(s, s.threads.live[id]) && Progress(s, id, WorkerNext(s, id, WAY_OUT))
  {
    hide Progress;
    var w := s.threads.live[id];
    match w.pc
    case Probing => EasyPut(s, id, ProbeStep(s, w, WAY_OUT.probe));
    case Plan => EasyPut(s, id, PlanStep(s, w));
  }

  lemma BodyIsNearer(s: State, w: Worker)
    requires w.pc == Body && w.i < |w.tasks|
    ensures var p := BodyStep(s, w, WAY_OUT);
      && p.0.threads == s.threads && p.0.cfg == s.cfg && p.0.kind == s.kind
      && OnItsWay(p.0, p.1) && Nearer(p.1, w)
  {}

  lemma EasyBody(s: State, id: nat)
    requires id in s.threads.live && OnItsWay(s, s.threads.live[id]) && s.threads.live[id].pc == Body
    ensures WorkerEnabled(s, s.threads.live[id]) && Progress(s, id, WorkerNext(s, id, WAY_OUT))
  {
    hide Progress, Nearer, BodyStep, Put;
    var w := s.threads.live[id];
    BodyIsNearer(s, w);
    EasyPut(s, id, BodyStep(s, w, WAY_OUT));
  }

  lemma EasyLoop(s: State, id: nat)
    requires id in s.threads.live && OnItsWay(s, s.threads.live[id])
    requires var pc := s.threads.live[id].pc; pc == LoopTest || pc == Body || pc == Waiting
    ensures WorkerEnabled(s, s.threads.live[id]) && Progress(s, id, WorkerNext(s, id, WAY_OUT))
  {
    hide Progress, EnterStep, ProbeStep, AnnounceStep, PlanStep, LaunchFailureStep, BodyStep;
    var w := s.threads.live[id];
    match w.pc
    case LoopTest => EasyPut(s, id, TestStep(s, w));
    case Body => EasyBody(s, id);
    case Waiting => EasyPut(s, id, WakeStep(s, w, false));
  }

  lemma EasyLaunch(s: State, id: nat)
    requires id in s.threads.live && OnItsWay(s, s.threads.live[id])
    requires var pc := s.threads.live[id].pc; pc == Launch || pc == Launching || pc == LaunchFailure
    ensures WorkerEnabled(s, s.threads.live[id]) && Progress(s, id, WorkerNext(s, id, WAY_OUT))
  {
    hide Progress, EnterStep, ProbeStep, AnnounceStep, PlanStep, BodyStep;
    var w := s.threads.live[id];
    match w.pc
    case Launch => EasyPut(s, id, LaunchStep(s, w));
    case Launching => EasyPut(s, id, LaunchedStep(s, w, false));
    case LaunchFailure => EasyPut(s, id, LaunchFailureStep(s, w, false));
  }

  lemma EasyStep(s: State, id: nat)
    requires id in s.threads.live && OnItsWay(s, s.threads.live[id]) && !Ends(s.threads.live[id].pc)
    ensures WorkerEnabled(s, s.threads.live[id]) && Progress(s, id, WorkerNext(s, id, WAY_OUT))
  {
    hide Progress, WorkerNext, WorkerEnabled;
    match s.threads.live[id].pc
    case Probing | Plan => EasyPlanning(s, id);
    case LoopTest | Body | Waiting => EasyLoop(s, id);
    case Launch | Launching | LaunchFailure => EasyLaunch(s, id);
  }

  lemma {:induction false} WorkerGetsOut(s: State, id: nat) returns (n: nat)
    requires id in s.threads.live && s.threads.live.Keys == {id} && s.threads.handle == Some(id)
    requires OnItsWay(s, s.threads.live[id])
    ensures CanReturn(s, n)
    decreases Planning(s.threads.live[id].pc),
      if Planning(s.threads.live[id].pc) then Rank(s.threads.live[id].pc) else 0,
      Left(s.threads.live[id]), s.threads.live[id].retry, Rank(s.threads.live[id].pc)
  {
    hide WorkerNext, WorkerEnabled, OnItsWay;
    var w := s.threads.live[id];
    var step := WorkerStep(id, WAY_OUT);
    if Ends(w.pc) {
      LastStepReturns(s, id);
      n := 0;
    } else {
      EasyStep(s, id);
      n := WorkerGetsOut(WorkerNext(s, id, WAY_OUT), id);
    }
    assert Enabled(s, step) && Next(s, step) == WorkerNext(s, id, WAY_OUT);
    OneMore(s, step, n);
    n := n + 1;
  }

  lemma LastStepReturns(s: State, id: nat)
    requires id in s.threads.live && Ends(s.threads.live[id].pc) && s.threads.handle == Some(id)
    ensures WorkerEnabled(s, s.threads.live[id]) && CanReturn(WorkerNext(s, id, WAY_OUT), 0)
  {
    hide Put, EnterStep, ProbeStep, AnnounceStep, PlanStep, TestStep, BodyStep, LaunchFailureStep;
    var r := WorkerNext(s, id, WAY_OUT);
    assert r.threads.handle == Some(id) && id !in r.threads.live;
    assert JoinReady(r);
  }

  /** A pending alarm wakes the worker; an armed timer runs out first. */
  lemma AlarmWakes(s: State, id: nat) returns (r: State)
    requires s.timer.alarm && s.current.Some? && s.current.value in s.inFlight && id in s.threads.live
    requires s.threads.live[id].pc == Waiting
    ensures Enabled(s, AlarmDelivered) && r == Next(s, AlarmDelivered)
    ensures r.threads == s.threads && r.signals.woken
    ensures s.threads.live[id].i < |s.threads.live[id].tasks| ==> OnItsWay(r, r.threads.live[id])
  {
    hide SetStatus;
    r := AlarmStep(s);
  }

  lemma TimerGetsItOut(s: State, id: nat) returns (n: nat)
    requires id in s.threads.live && s.threads.live.Keys == {id} && s.threads.handle == Some(id) && AlarmHelps(s)
    requires s.threads.live[id].pc == Waiting && s.threads.live[id].i < |s.threads.live[id].tasks|
    ensures CanReturn(s, n)
  {
    hide CanReturn, OnItsWay;
    if s.timer.alarm {
      var r := AlarmWakes(s, id);
      n := WorkerGetsOut(r, id);
      OneMore(s, AlarmDelivered, n);
      n := n + 1;
    } else {
      var q := Next(s, TimerExpires);
      var r := AlarmWakes(q, id);
      n := WorkerGetsOut(r, id);
      OneMore(q, AlarmDelivered, n);
      OneMore(s, TimerExpires, n + 1);
      n := n + 2;
    }
  }

  /** A join that can never return, however the calls of anyone turn out. */
  ghost predicate Stuck(s: State) { Doomed(s) || WaitsInVain(s) }

  lemma StuckStep(s: State, step: Step)
    requires Inv(s) && WaitInv(s) && Stuck(s) && Enabled(s, step) && !step.SpuriousWake?
    ensures Stuck(Next(s, step)) && !JoinReady(s)
  {
    hide Doomed, WaitsInVain, Inv, WaitInv;
    if Doomed(s) {
      DoomedStep(s, step);
    } else {
      VainStep(s, step);
    }
  }

  lemma StuckIsNotReady(s: State)
    requires Inv(s) && Stuck(s)
    ensures !JoinReady(s)
  {
    hide Story, WorkerOk;
    var id :| id in s.threads.live && (WillNeedMutex(s.threads.live[id].pc) || s.threads.live[id].pc == Waiting);
    assert s.threads.handle == Some(id);
  }

  lemma {:induction false} StuckCannotReturn(s: State, n: nat)
    requires Inv(s) && WaitInv(s) && Stuck(s)
    ensures !CanReturn(s, n)
    decreases n
  {
    hide Inv, WaitInv, Stuck;
    StuckIsNotReady(s);
    if CanReturn(s, n) {
      var step :| Enabled(s, step) && !step.SpuriousWake? && CanReturn(Next(s, step), n - 1);
      StepKeeps(s, step);
      StepKeepsWaits(s, step);
      StuckStep(s, step);
      StuckCannotReturn(Next(s, step), n - 1);
    }
  }

  lemma NotStuckCanReturn(s: State) returns (n: nat)
    requires Inv(s) && s.mutex != Free && !Stuck(s)
    ensures CanReturn(s, n)
  {
    hide Story, WorkerOk;
    if id :| id in s.threads.live {
      assert forall x :: x in s.threads.live ==> x == id;
      if s.threads.live[id].pc == Waiting && !s.signals.woken {
        TaskChosen(s, id);
        n := TimerGetsItOut(s, id);
      } else {
        JoinedWorkerIsOnItsWay(s, id);
        n := WorkerGetsOut(s, id);
      }
    } else {
      assert JoinReady(s);
      n := 0;
    }
  }

  /** Without spurious wake-ups, a pending join can return exactly unless the joined worker needs the mutex its joiner
      holds, or waits for a notification that was sent before its wait began and no alarm can stand in for it. */
  lemma JoinCanReturnIff(s: State)
    requires Inv(s) && WaitInv(s) && s.mutex != Free
    ensures Doomed(s) || WaitsInVain(s) <==> !exists n: nat :: CanReturn(s, n)
  {
    hide Inv, WaitInv, Doomed, WaitsInVain, CanReturn;
    if Stuck(s) {
      forall n: nat ensures !CanReturn(s, n) { StuckCannotReturn(s, n); }
    } else {
      var n := NotStuckCanReturn(s);
    }
  }

  // ---- Who can deadlock with whom ----

  /** Where a worker blocks a pending join for ever. */
  predicate Blocks(s: State, pc: Pc) {
    || (if s.mutex.StartJoining? then pc == Enter || pc == Announce else pc == NoNetwork)
    || (!s.mutex.StartJoining? && pc == Waiting && !s.signals.woken && !AlarmHelps(s))
  }

  /** A start blocks for ever exactly on a worker that has still to announce STARTED; a stop or a verdict exactly on one
      that is about to report that there is no network, or that waits in vain. */
  lemma WhomAJoinIsStuckWith(s: State)
    requires Inv(s) && s.mutex != Free
    ensures Stuck(s) <==> exists id :: id in s.threads.live && Blocks(s, s.threads.live[id].pc)
  {
    hide Story, AlarmHelps;
    forall id | id in s.threads.live
      ensures WillNeedMutex(s.threads.live[id].pc) ==> Blocks(s, s.threads.live[id].pc)
      ensures s.threads.live[id].pc == Waiting && !s.signals.woken && !AlarmHelps(s) ==>
        Blocks(s, s.threads.live[id].pc)
    {
      assert WorkerOk(s, s.threads.live[id]);
    }
  }
}

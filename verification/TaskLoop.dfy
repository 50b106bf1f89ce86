/** The task loop of the worker thread in its own sequential form, with its `i--` retry, while the event handler, the
    timer signal and stop requests interfere at every point where they can. */
module TaskLoop {
  import opened Wrappers
  import opened TaskStatus
  import opened MaintenanceCycle

  /** What happens to the worker between two of its statements, and how its next call turns out. */
  datatype Moment = Moment(
    bits: bv16,             // status bits set by events and timeouts
    inFlight: set<Task>,    // the task flags as others leave them
    stop: bool,             // a stop request sets m_abort_flag
    expired: bool,          // the timer runs out
    created: bool, timerSet: bool, disarmed: bool,   // timer_create and timer_settime succeed
    launch: int)            // what system() returns

  datatype Act = TimerStarted(task: Task, ok: bool) | Launched(task: Task, code: int) | Waited | TimerStopped

  /** One task of the list: its timer start and the results of its launches. */
  datatype Attempt = Attempt(task: Task, timerOk: bool, codes: seq<int>, closed: bool)

  function Launches(t: Task, codes: seq<int>): seq<Act> {
    seq(|codes|, i requires 0 <= i < |codes| => Launched(t, codes[i]))
  }

  /** The calls that make up an attempt: one timer start, then the launches, then, if it was closed, a wait after a
      launch that succeeded, and one timer stop. */
  function Acts(a: Attempt): seq<Act> {
    [TimerStarted(a.task, a.timerOk)] + Launches(a.task, a.codes) +
    if a.closed then Wait(a) + [TimerStopped] else []
  }

  function Wait(a: Attempt): seq<Act> { if LaunchedOk(a) then [Waited] else [] }

  function Flatten(attempts: seq<Attempt>): seq<Act> {
    if attempts == [] then [] else Flatten(attempts[..|attempts| - 1]) + Acts(attempts[|attempts| - 1])
  }

  predicate LaunchedOk(a: Attempt) { |a.codes| > 0 && a.codes[|a.codes| - 1] == 0 }

  /** At most one launch more than there are retries, none without a timer, and none after a success. */
  predicate AttemptOk(a: Attempt) {
    && |a.codes| <= TASK_RETRY_COUNT + 1
    && (!a.timerOk ==> a.codes == [])
    && (forall i :: 0 <= i < |a.codes| - 1 ==> a.codes[i] != 0)
  }

  /** The attempts are those of the first tasks of the list, in order; only the last can be left open. */
  predicate InOrder(attempts: seq<Attempt>, tasks: seq<Task>) {
    && |attempts| <= |tasks|
    && (forall j :: 0 <= j < |attempts| ==> attempts[j].task == tasks[j] && AttemptOk(attempts[j]))
    && (forall j :: 0 <= j < |attempts| - 1 ==> attempts[j].closed)
  }

  /** No timer, or every launch failed and no retry is left. */
  predicate Exhausted(a: Attempt) { a.timerOk ==> |a.codes| == TASK_RETRY_COUNT + 1 }

  /** A closed attempt has either launched its task, or was exhausted and set its COMPLETE bit. */
  predicate Accounted(a: Attempt, status: bv16) {
    a.closed ==> LaunchedOk(a) || (Exhausted(a) && Completed(status, a.task))
  }

  /** A stop request comes at one of the moments from `from` until `until`. */
  ghost predicate StopCame(env: nat -> Moment, from: nat, until: nat) {
    exists k: nat :: from <= k < until && env(k).stop
  }

  lemma OneMoreMoment(env: nat -> Moment, from: nat, until: nat)
    requires from <= until
    ensures StopCame(env, from, until + 1) <==> StopCame(env, from, until) || env(until).stop
    ensures !StopCame(env, from, from)
  {}

  // ---- Counting the calls ----

  function Starts(acts: seq<Act>, t: Task): nat {
    if acts == [] then 0
    else Starts(acts[..|acts| - 1], t) + if acts[|acts| - 1].TimerStarted? && acts[|acts| - 1].task == t then 1 else 0
  }

  function Runs(acts: seq<Act>, t: Task): nat {
    if acts == [] then 0
    else Runs(acts[..|acts| - 1], t) + if acts[|acts| - 1].Launched? && acts[|acts| - 1].task == t then 1 else 0
  }

  lemma {:induction false} CountsAdd(a: seq<Act>, b: seq<Act>, t: Task)
    ensures Starts(a + b, t) == Starts(a, t) + Starts(b, t)
    ensures Runs(a + b, t) == Runs(a, t) + Runs(b, t)
  {
    if b == [] {
      assert a + b == a;
    } else {
      assert (a + b)[..|a + b| - 1] == a + b[..|b| - 1];
      CountsAdd(a, b[..|b| - 1], t);
    }
  }

  lemma {:induction false} LaunchCounts(u: Task, codes: seq<int>, t: Task)
    ensures Starts(Launches(u, codes), t) == 0
    ensures Runs(Launches(u, codes), t) == if u == t then |codes| else 0
  {
    if codes != [] {
      var n := |codes| - 1;
      LaunchCounts(u, codes[..n], t);
      assert Launches(u, codes)[..n] == Launches(u, codes[..n]);
    }
  }

  lemma ActCounts(a: Attempt, t: Task)
    ensures Starts(Acts(a), t) == if a.task == t then 1 else 0
    ensures Runs(Acts(a), t) == if a.task == t then |a.codes| else 0
  {
    var first, last := [TimerStarted(a.task, a.timerOk)], if a.closed then Wait(a) + [TimerStopped] else [];
    CountsAdd(Wait(a), [TimerStopped], t);
    LaunchCounts(a.task, a.codes, t);
    CountsAdd(first, Launches(a.task, a.codes), t);
    CountsAdd(first + Launches(a.task, a.codes), last, t);
  }

  predicate Distinct(tasks: seq<Task>) {
    forall i, j :: 0 <= i < j < |tasks| ==> tasks[i] != tasks[j]
  }

  /** Over a whole run the timer is started exactly once for each attempted task and for no other, and no task is
      launched more often than twice. */
  lemma {:induction false} OneTimerPerTask(attempts: seq<Attempt>, tasks: seq<Task>, t: Task)
    requires InOrder(attempts, tasks) && Distinct(tasks)
    ensures Starts(Flatten(attempts), t) == if t in tasks[..|attempts|] then 1 else 0
    ensures Runs(Flatten(attempts), t) <= if t in tasks[..|attempts|] then 2 else 0
  {
    if attempts != [] {
      var n := |attempts| - 1;
      OneTimerPerTask(attempts[..n], tasks, t);
      ActCounts(attempts[n], t);
      CountsAdd(Flatten(attempts[..n]), Acts(attempts[n]), t);
      assert tasks[..n + 1] == tasks[..n] + [tasks[n]];
      hide Acts, Starts, Runs;
    }
  }

  /** What the attempts so far amount to; all but perhaps the last are closed, and that one only after an abort. */
  predicate Sound(attempts: seq<Attempt>, tasks: seq<Task>, status: bv16) {
    && InOrder(attempts, tasks)
    && forall j :: 0 <= j < |attempts| ==> Accounted(attempts[j], status)
  }

  predicate AllClosed(attempts: seq<Attempt>) {
    forall j :: 0 <= j < |attempts| ==> attempts[j].closed
  }

  predicate Grows(v: bv16, w: bv16) {
    forall t: Task :: Completed(v, t) ==> Completed(w, t)
  }

  lemma SoundGrows(attempts: seq<Attempt>, tasks: seq<Task>, v: bv16, w: bv16)
    requires Sound(attempts, tasks, v) && Grows(v, w)
    ensures Sound(attempts, tasks, w)
  {}

  lemma SoundExtended(attempts: seq<Attempt>, tasks: seq<Task>, v: bv16, a: Attempt)
    requires Sound(attempts, tasks, v) && AllClosed(attempts)
    requires |attempts| < |tasks| && a.task == tasks[|attempts|] && AttemptOk(a) && Accounted(a, v)
    ensures Sound(attempts + [a], tasks, v) && (a.closed ==> AllClosed(attempts + [a]))
  {}

  /** An attempt whose launches have all failed so far. */
  predicate Pending(a: Attempt, t: Task, failures: nat) {
    a.task == t && !a.closed && AttemptOk(a) && !LaunchedOk(a) && |a.codes| == failures && (failures > 0 ==> a.timerOk)
  }

  lemma PendingLaunch(a: Attempt, t: Task, failures: nat, code: int)
    requires Pending(a, t, failures) && a.timerOk && failures <= TASK_RETRY_COUNT
    ensures var b := a.(codes := a.codes + [code]);
      && AttemptOk(b) && !b.closed && b.task == t && (code == 0 ==> LaunchedOk(b))
      && (code != 0 ==> Pending(b, t, failures + 1))
  {
    var b := a.(codes := a.codes + [code]);
    forall i | 0 <= i < |b.codes| - 1 ensures b.codes[i] != 0 {
      if i == |a.codes| - 1 { assert a.codes[i] != 0; }
    }
  }

  lemma BitsOnlyGrow(v: bv16, bits: bv16, t: Task)
    ensures Completed(v, t) ==> Completed(v | bits, t)
  {
    var m := CompleteBit(t);
    assert v & m != 0 ==> (v | bits) & m != 0;
  }

  lemma FlattenLast(attempts: seq<Attempt>, a: Attempt)
    ensures Flatten(attempts + [a]) == Flatten(attempts) + Acts(a)
  {
    assert (attempts + [a])[..|attempts + [a]| - 1] == attempts;
  }

  lemma MoreLaunches(t: Task, codes: seq<int>, code: int)
    ensures Launches(t, codes + [code]) == Launches(t, codes) + [Launched(t, code)]
  {}

  lemma NothingYet(tasks: seq<Task>, status: bv16, acts: seq<Act>)
    ensures Sound([], tasks, status) && AllClosed([]) && acts == acts + Flatten([])
  {}

  lemma ClosedActs(a: Attempt)
    requires !a.closed
    ensures Acts(a.(closed := true)) == Acts(a) + Wait(a) + [TimerStopped]
  {}

  lemma Regroup(a: seq<Act>, b: seq<Act>, c: seq<Act>, d: seq<Act>, e: seq<Act>)
    ensures a + b + c + d + e == a + (b + (c + d + e))
  {}

  /** An attempt that ends with a timer stop. */
  lemma Concluded(attempts: seq<Attempt>, tasks: seq<Task>, status: bv16, open: Attempt, before: seq<Act>,
                  acts: seq<Act>)
    returns (more: seq<Attempt>)
    requires Sound(attempts, tasks, status) && AllClosed(attempts) && |attempts| < |tasks|
    requires open.task == tasks[|attempts|] && AttemptOk(open) && !open.closed
    requires LaunchedOk(open) || (Exhausted(open) && Completed(status, open.task))
    requires acts == before + Flatten(attempts) + Acts(open) + Wait(open)
    ensures |more| == |attempts| + 1 && Sound(more, tasks, status) && AllClosed(more)
    ensures acts + [TimerStopped] == before + Flatten(more)
  {
    var closed := open.(closed := true);
    SoundExtended(attempts, tasks, status, closed);
    FlattenLast(attempts, closed);
    ClosedActs(open);
    more := attempts + [closed];
    Regroup(before, Flatten(attempts), Acts(open), Wait(open), [TimerStopped]);
    hide Flatten, Acts, Wait, Sound, AllClosed, Completed;
  }

  /** An attempt given up because of a stop request. */
  lemma LeaveOpen(attempts: seq<Attempt>, tasks: seq<Task>, status: bv16, open: Attempt, before: seq<Act>,
                  acts: seq<Act>)
    returns (more: seq<Attempt>)
    requires Sound(attempts, tasks, status) && AllClosed(attempts) && |attempts| < |tasks|
    requires exists n :: Pending(open, tasks[|attempts|], n)
    requires acts == before + Flatten(attempts) + Acts(open)
    ensures Sound(more, tasks, status) && acts == before + Flatten(more)
  {
    SoundExtended(attempts, tasks, status, open);
    FlattenLast(attempts, open);
    more := attempts + [open];
    assert before + Flatten(attempts) + Acts(open) == before + (Flatten(attempts) + Acts(open));
  }

  lemma SoundMeans(attempts: seq<Attempt>, tasks: seq<Task>, status: bv16)
    requires Sound(attempts, tasks, status)
    ensures InOrder(attempts, tasks)
    ensures forall j :: 0 <= j < |attempts| ==> Accounted(attempts[j], status)
    ensures |attempts| == |tasks| && AllClosed(attempts) ==> forall j :: 0 <= j < |tasks| ==>
      && attempts[j].closed
      && (LaunchedOk(attempts[j]) || (Exhausted(attempts[j]) && Completed(status, tasks[j])))
  {}

  lemma Beginning(w: Worker)
    ensures w.AbortMeans(w.abort, w.clock)
  {
    OneMoreMoment(w.env, w.clock, w.clock);
  }

  lemma InTheEnd(w: Worker, asked: bool, from: nat)
    ensures w.AbortMeans(asked, from) ==> (w.abort <==> asked || StopCame(w.env, from, w.clock))
    ensures w.Undisturbed(asked, from) ==> !asked && !StopCame(w.env, from, w.lastCall)
  {}

  class Worker {
    const env: nat -> Moment
    var clock: nat
    var status: bv16
    var inFlight: set<Task>
    var abort: bool
    var current: Option<Task>
    var timerCreated: bool
    var timerArmed: bool
    ghost var acts: seq<Act>
    ghost var lastCall: nat     // the moment of the latest timer start or launch

    constructor (env: nat -> Moment, status: bv16)
      ensures this.env == env && this.status == status && acts == [] && !abort && !timerArmed && !timerCreated
    {
      this.env, this.status, acts, lastCall := env, status, [], 0;
      clock, inFlight, abort, current, timerCreated, timerArmed := 0, {}, false, None, false, false;
    }

    /** Others run. They set status bits, never clear them, and nothing but a stop request sets the abort flag, which
        nobody takes back. */
    method Interleave()
      modifies this`clock, this`status, this`inFlight, this`abort, this`timerArmed
      ensures clock == old(clock) + 1
      ensures Grows(old(status), status)
      ensures abort <==> old(abort) || env(old(clock)).stop
      ensures timerArmed ==> old(timerArmed)
    {
      var m := env(clock);
      clock := clock + 1;
      forall t: Task ensures Completed(status, t) ==> Completed(status | m.bits, t) {
        BitsOnlyGrow(status, m.bits, t);
      }
      status := status | m.bits;
      inFlight := m.inFlight;
      abort := abort || m.stop;
      timerArmed := timerArmed && !m.expired;
    }

    method StartTimer(t: Task) returns (started: bool)
      requires timerArmed ==> timerCreated
      modifies this`timerCreated, this`timerArmed, this`acts, this`lastCall
      ensures acts == old(acts) + [TimerStarted(t, started)] && lastCall == clock
      ensures timerArmed ==> timerCreated
      ensures started ==> timerArmed
      ensures !started ==> timerArmed == old(timerArmed)
    {
      var m := env(clock);
      started := false;
      if timerCreated || m.created {
        timerCreated := true;
        if m.timerSet {
          timerArmed := true;
          started := true;
        }
      }
      acts, lastCall := acts + [TimerStarted(t, started)], clock;
    }

    method StopTimer()
      requires timerArmed ==> timerCreated
      modifies this`timerArmed
      ensures timerArmed ==> timerCreated && old(timerArmed) && !env(clock).disarmed
    {
      if timerCreated && env(clock).disarmed {
        timerArmed := false;
      }
    }

    /** The abort flag is true exactly if it was at `from` or a stop request has come since. */
    ghost predicate AbortMeans(asked: bool, from: nat)
      reads this`clock, this`abort
    {
      from <= clock && (abort <==> asked || StopCame(env, from, clock))
    }

    /** No stop request came before the latest timer start or launch. */
    ghost predicate Undisturbed(asked: bool, from: nat)
      reads this`lastCall
    {
      !asked && !StopCame(env, from, lastCall)
    }

    method Others(ghost attempts: seq<Attempt>, ghost tasks: seq<Task>, ghost asked: bool, ghost from: nat)
      requires Sound(attempts, tasks, status) && AbortMeans(asked, from)
      modifies this`clock, this`status, this`inFlight, this`abort, this`timerArmed
      ensures Sound(attempts, tasks, status)
      ensures AbortMeans(asked, from) && clock > old(clock)
      ensures old(abort) ==> abort
      ensures timerArmed ==> old(timerArmed)
    {
      ghost var v := status;
      OneMoreMoment(env, from, clock);
      Interleave();
      SoundGrows(attempts, tasks, v, status);
    }

    /** "Setting task as Error". */
    method SetComplete(t: Task, ghost attempts: seq<Attempt>, ghost tasks: seq<Task>)
      requires Sound(attempts, tasks, status)
      modifies this`status
      ensures status == SetStatus(old(status), CompleteBit(t)) && Sound(attempts, tasks, status)
      ensures forall u: Task :: Completed(status, u) <==> t == u || Completed(old(status), u)
    {
      ghost var w := SetStatus(status, CompleteBit(t));
      forall u: Task ensures Completed(w, u) <==> t == u || Completed(status, u) {
        TaskStatus.SetComplete(status, t, u);
      }
      SoundGrows(attempts, tasks, status, w);
      status := SetStatus(status, CompleteBit(t));
    }

    /** The timer is started for a task: an attempt begins. */
    method Open(task: Task, ghost asked: bool, ghost from: nat) returns (started: bool, ghost open: Attempt)
      requires (timerArmed ==> timerCreated) && !abort && AbortMeans(asked, from)
      modifies this`timerCreated, this`timerArmed, this`acts, this`lastCall
      ensures timerArmed ==> timerCreated
      ensures if started then timerArmed else timerArmed == old(timerArmed)
      ensures Pending(open, task, 0) && open.timerOk == started
      ensures acts == old(acts) + Acts(open) && AbortMeans(asked, from) && Undisturbed(asked, from)
    {
      started := StartTimer(task);
      open := Attempt(task, started, [], false);
      assert Acts(open) == [TimerStarted(task, started)];
    }

    /** system(), recorded in the attempt under way. */
    method Launch(task: Task, ghost open: Attempt, ghost failures: nat, ghost asked: bool, ghost from: nat)
      returns (code: int, ghost more: Attempt)
      requires !abort && AbortMeans(asked, from)
      requires Pending(open, task, failures) && open.timerOk && failures <= TASK_RETRY_COUNT
      modifies this`inFlight, this`acts, this`lastCall
      ensures inFlight == old(inFlight) + {task} && code == env(clock).launch
      ensures more == open.(codes := open.codes + [code])
      ensures AbortMeans(asked, from) && Undisturbed(asked, from)
      ensures more.timerOk && more.task == task && !more.closed && AttemptOk(more)
      ensures if code == 0 then LaunchedOk(more) else Pending(more, task, failures + 1)
      ensures forall before :: old(acts) == before + Acts(open) ==> acts == before + Acts(more)
    {
      inFlight := inFlight + {task};
      code := env(clock).launch;
      more := open.(codes := open.codes + [code]);
      PendingLaunch(open, task, failures, code);
      MoreLaunches(task, open.codes, code);
      ghost var was := acts;
      acts, lastCall := acts + [Launched(task, code)], clock;
      assert Acts(more) == Acts(open) + [Launched(task, code)];
      forall before | was == before + Acts(open) ensures acts == before + Acts(more) {
        assert was + [Launched(task, code)] == before + (Acts(open) + [Launched(task, code)]);
      }
    }

    /** The timer start, before a first launch, and the launch. */
    method Try(task: Task, retryCount: nat, timerStarted: bool, ghost attempt: Attempt, ghost before: seq<Act>,
               ghost attempts: seq<Attempt>, ghost tasks: seq<Task>, ghost asked: bool, ghost from: nat)
      returns (started: bool, taskStatus: int, ghost open: Attempt)
      requires (timerArmed ==> timerCreated) && !abort && AbortMeans(asked, from) && Sound(attempts, tasks, status)
      requires retryCount <= TASK_RETRY_COUNT
      requires if retryCount == TASK_RETRY_COUNT then acts == before
        else timerStarted && attempt.timerOk && Pending(attempt, task, TASK_RETRY_COUNT - retryCount)
             && acts == before + Acts(attempt)
      modifies this`clock, this`status, this`inFlight, this`abort, this`timerArmed, this`timerCreated, this`acts,
        this`lastCall
      ensures (timerArmed ==> timerCreated) && Sound(attempts, tasks, status)
      ensures AbortMeans(asked, from) && Undisturbed(asked, from)
      ensures open.task == task && !open.closed && AttemptOk(open) && open.timerOk == started
      ensures acts == before + Acts(open)
      ensures if taskStatus == 0 then started && LaunchedOk(open)
              else Pending(open, task, if started then TASK_RETRY_COUNT - retryCount + 1 else 0)
      ensures taskStatus != 0 ==> !LaunchedOk(open)
      ensures taskStatus != 0 && (retryCount == 0 || !started) ==> Exhausted(open)
      ensures !started ==> retryCount == TASK_RETRY_COUNT
    {
      hide Acts, Sound, AbortMeans, Undisturbed, AttemptOk, LaunchedOk;
      started, taskStatus, open := timerStarted, -1, attempt;
      if retryCount == TASK_RETRY_COUNT {
        started, open := Open(task, asked, from);
      }
      if started {
        taskStatus, open := Launch(task, open, TASK_RETRY_COUNT - retryCount, asked, from);
        Others(attempts, tasks, asked, from);
      }
    }

    /** task_stopTimer at the end of an attempt. */
    method Close(ghost attempts: seq<Attempt>, ghost tasks: seq<Task>, ghost open: Attempt, ghost before: seq<Act>)
      returns (ghost more: seq<Attempt>)
      requires timerArmed ==> timerCreated
      requires Sound(attempts, tasks, status) && AllClosed(attempts) && |attempts| < |tasks|
      requires open.task == tasks[|attempts|] && AttemptOk(open) && !open.closed
      requires LaunchedOk(open) || (Exhausted(open) && Completed(status, open.task))
      requires acts == before + Flatten(attempts) + Acts(open) + Wait(open)
      modifies this`timerArmed, this`acts
      ensures timerArmed ==> timerCreated && !env(clock).disarmed
      ensures |more| == |attempts| + 1 && Sound(more, tasks, status) && AllClosed(more)
      ensures acts == before + Flatten(more)
    {
      hide Flatten, Acts, Wait, Launches, Sound, AllClosed, AttemptOk, Completed;
      StopTimer();
      more := Concluded(attempts, tasks, status, open, before, acts);
      acts := acts + [TimerStopped];
    }

    /** Giving the task up, or waiting for a notification, and then stopping the timer. */
    method Settle(task: Task, taskStatus: int, ghost open: Attempt, ghost before: seq<Act>,
                  ghost attempts: seq<Attempt>, ghost tasks: seq<Task>, ghost asked: bool, ghost from: nat)
      returns (ghost more: seq<Attempt>)
      requires (timerArmed ==> timerCreated) && AbortMeans(asked, from)
      requires Sound(attempts, tasks, status) && AllClosed(attempts) && |attempts| < |tasks|
      requires open.task == task == tasks[|attempts|] && AttemptOk(open) && !open.closed
      requires if taskStatus == 0 then LaunchedOk(open) else !LaunchedOk(open) && Exhausted(open)
      requires acts == before + Flatten(attempts) + Acts(open)
      modifies this`clock, this`status, this`inFlight, this`abort, this`timerArmed, this`acts
      ensures timerArmed ==> timerCreated && !env(clock).disarmed
      ensures |more| == |attempts| + 1 && Sound(more, tasks, status) && AllClosed(more)
      ensures acts == before + Flatten(more)
      ensures AbortMeans(asked, from) && (old(abort) ==> abort)
    {
      hide Flatten, Acts, Sound, AllClosed, AttemptOk, LaunchedOk, Exhausted, AbortMeans, SetStatus;
      if taskStatus != 0 {
        SetComplete(task, attempts, tasks);
      } else {
        Others(attempts, tasks, asked, from);
        acts := acts + [Waited];
      }
      more := Close(attempts, tasks, open, before);
    }

    /** The body of the worker from its task list to its end. `attempts` says what it did. Every wait is taken to end:
        when one may not is the subject of `MaintenanceJoin`. */
    method RunTasks(tasks: seq<Task>) returns (aborted: bool, ghost attempts: seq<Attempt>)
      requires timerArmed ==> timerCreated
      modifies this
      // every call to the timer and to system(), in order, is part of an attempt
      ensures acts == old(acts) + Flatten(attempts)
      ensures InOrder(attempts, tasks)
      ensures forall j :: 0 <= j < |attempts| ==> Accounted(attempts[j], status)
      // the run is aborted exactly if a stop request came, and no timer start or launch comes after one
      ensures aborted <==> old(abort) || StopCame(env, old(clock), clock)
      ensures attempts != [] ==> !old(abort) && !StopCame(env, old(clock), lastCall)
      // without one every task was attempted, and either launched or set to complete after its last retry
      ensures !aborted ==> |attempts| == |tasks| && forall j :: 0 <= j < |tasks| ==>
        && attempts[j].closed
        && (LaunchedOk(attempts[j]) || (Exhausted(attempts[j]) && Completed(status, tasks[j])))
      // the timer is left disarmed, and the request to stop is taken note of
      ensures !old(timerArmed) && (forall k: nat :: env(k).disarmed) ==> !timerArmed
      ensures !abort
    {
      hide Flatten, Acts, Launches, Sound, AllClosed, Pending, AttemptOk, LaunchedOk, Grows, Completed, StopCame;
      hide AbortMeans, Undisturbed, InOrder, Accounted, Exhausted, SetStatus;
      ghost var asked, from, before := abort, clock, acts;
      Beginning(this);
      var i := 0;
      var retryCount := TASK_RETRY_COUNT;
      var isTaskTimerStarted := false;
      attempts := [];
      ghost var careful := !timerArmed && forall k: nat :: env(k).disarmed;
      ghost var open := Attempt(RFC, false, [], false);    // the attempt whose launch is to be tried again
      ghost var dropped := false;                          // a stop request came at the head of the body
      NothingYet(tasks, status, acts);
      while i < |tasks| && !abort
        invariant 0 <= i <= |tasks| && 0 <= retryCount <= TASK_RETRY_COUNT
        invariant timerArmed ==> timerCreated
        invariant if dropped then abort && retryCount == TASK_RETRY_COUNT else |attempts| == i && AllClosed(attempts)
        invariant Sound(attempts, tasks, status)
        invariant AbortMeans(asked, from)
        invariant attempts != [] || retryCount < TASK_RETRY_COUNT ==> Undisturbed(asked, from)
        invariant careful && timerArmed ==> dropped || retryCount < TASK_RETRY_COUNT
        invariant retryCount == TASK_RETRY_COUNT ==> acts == before + Flatten(attempts)
        invariant retryCount < TASK_RETRY_COUNT ==>
          && i < |tasks| && isTaskTimerStarted && open.timerOk && Pending(open, tasks[i], TASK_RETRY_COUNT - retryCount)
          && acts == before + Flatten(attempts) + Acts(open)
        decreases |tasks| - i, retryCount
      {
        var taskStatus;
        var task := tasks[i];
        current := Some(task);
        Others(attempts, tasks, asked, from);
        if !abort {
          isTaskTimerStarted, taskStatus, open := Try(task, retryCount, isTaskTimerStarted, open,
                                                      before + Flatten(attempts), attempts, tasks, asked, from);
          if taskStatus != 0 {
            inFlight := inFlight - {task};
            if retryCount > 0 && isTaskTimerStarted {
              Others(attempts, tasks, asked, from);          // sleeping before the retry
              i := i - 1;
              retryCount := retryCount - 1;
              i := i + 1;
              continue;
            }
          }
          attempts := Settle(task, taskStatus, open, before, attempts, tasks, asked, from);
        } else {
          dropped := true;
          if retryCount < TASK_RETRY_COUNT {
            attempts := LeaveOpen(attempts, tasks, status, open, before, acts);
          }
        }
        retryCount := TASK_RETRY_COUNT;
        i := i + 1;
      }
      if retryCount < TASK_RETRY_COUNT {
        attempts := LeaveOpen(attempts, tasks, status, open, before, acts);
      }
      Others(attempts, tasks, asked, from);
      aborted := abort;
      InTheEnd(this, asked, from);
      SoundMeans(attempts, tasks, status);
      if abort {
        abort := false;
        StopTimer();
      }
    }
  }
}

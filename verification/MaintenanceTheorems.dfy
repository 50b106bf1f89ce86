/** Safety of whole runs of the maintenance cycle, stated on the entries of the history. */
module MaintenanceTheorems {
  import opened Wrappers
  import opened TaskStatus
  import opened MaintenanceHistory
  import opened MaintenanceCycle
  import opened MaintenanceSafety

  lemma {:induction false} ExecutionKeeps(states: seq<State>, steps: seq<Step>, k: nat)
    requires IsExecution(states, steps) && Inv(states[0]) && k < |states|
    ensures Inv(states[k])
  {
    if k > 0 {
      ExecutionKeeps(states, steps, k - 1);
      StepKeeps(states[k - 1], steps[k - 1]);
    }
  }

  lemma RunKeeps(states: seq<State>, steps: seq<Step>, k: nat)
    requires IsRun(states, steps) && k < |states|
    ensures Inv(states[k])
  {
    InitInv(states[0]);
    ExecutionKeeps(states, steps, k);
  }

  /** The entries of the history of a run, up to state `n`. */
  ghost function Told(states: seq<State>, n: nat): seq<Entry>
    requires n < |states|
  {
    Entries(states[n].log)
  }

  lemma LastIsUnique(es: seq<Entry>, a: Status, b: Status)
    requires LastBroadcastIs(es, a)
    ensures LastBroadcastIs(es, b) ==> a == b
    ensures !NoBroadcast(es)
  {
    var i :| 0 <= i < |es| && es[i].Broadcast? && es[i].status == a && forall j :: i < j < |es| ==> !es[j].Broadcast?;
  }

  /** What may come before a broadcast. */
  ghost predicate Alternates(past: seq<Entry>, e: Entry)
    requires e.Broadcast?
  {
    match e.status
    case Idle => NoBroadcast(past)
    case Started => !NoBroadcast(past) && !LastBroadcastIs(past, Started)
    case _ =>
      || LastBroadcastIs(past, Started)
      || (e.status == Error && (e.origin == ByWorker || e.origin == ByBoot) && LastBroadcastIs(past, Idle))
  }

  /** Between two STARTED broadcasts there is a terminal one and the other way round; the one terminal broadcast
      without a STARTED is an ERROR of the worker or of bootup straight after IDLE, and IDLE comes first. INCOMPLETE
      is never broadcast. */
  lemma StartedAndTerminalAlternate(states: seq<State>, steps: seq<Step>, n: nat, k: nat)
    requires IsRun(states, steps) && n < |states|
    requires k < |Told(states, n)| && Told(states, n)[k].Broadcast?
    ensures Alternates(Told(states, n)[..k], Told(states, n)[k])
    ensures Told(states, n)[k].status != Incomplete
  {
    RunKeeps(states, steps, n);
    var log := states[n].log;
    EntryAt(log, k);
    var past := Upto(log, k);
    DigestMeansBroadcasts(past);
    if DigestOf(past).anyBroadcast {
      LastIsUnique(Entries(past), DigestOf(past).last, Started);
    } else {
      assert NoBroadcast(Entries(past));
    }
  }

  /** Never more than one worker lives, a worker is started only when none does, and none is left when the event handler
      or stop reports the end of the cycle. */
  lemma NoWorkerOutlivesItsCycle(states: seq<State>, steps: seq<Step>, n: nat)
    requires IsRun(states, steps) && n < |states|
    ensures |states[n].threads.live| <= 1 && !states[n].threads.terminated
    ensures forall k :: 0 <= k < |Told(states, n)| ==>
      var e := Told(states, n)[k];
      && (e.Spawned? ==> e.live == 0)
      && (e.Broadcast? ==> e.live <= 1)
      && (e.Broadcast? && Terminal(e.status) && (e.origin == ByHandler || e.origin == ByStop) ==> e.live == 0)
  {
    RunKeeps(states, steps, n);
    AtMostOneLive(states[n]);
    forall k | 0 <= k < |Told(states, n)| ensures EntryOk(DigestOf(Upto(states[n].log, k)), Told(states, n)[k]) {
      EntryAt(states[n].log, k);
    }
  }

  /** COMPLETE is broadcast, and the completion time rewritten, only on evidence for every task since the last reset:
      a COMPLETE event accepted while the task's flag was true or, for SWUPDATE alone, the worker's decision to skip it
      on a device that is not activated, without WhoAmI support and with maintenance suppression.
      Launch failures, timeouts, aborts and ERROR events are no evidence. */
  lemma CompleteRestsOnEvidence(states: seq<State>, steps: seq<Step>, n: nat, k: nat, t: Task)
    requires IsRun(states, steps) && n < |states| && k < |Told(states, n)|
    requires var e := Told(states, n)[k]; e.TimeRecorded? || (e.Broadcast? && e.status == Complete)
    ensures var past := Told(states, n)[..k];
      Since(past, Accepted(t, true)) || (t == SWUPDATE && SkippedForActivation(past))
    ensures Told(states, n)[k].Broadcast? ==> Told(states, n)[k].origin == ByHandler
  {
    RunKeeps(states, steps, n);
    EntryAt(states[n].log, k);
    ProvenMeansEvidence(Upto(states[n].log, k), t);
  }

  /** No COMPLETE event is ever acted upon for a task whose flag was false. */
  lemma AcceptedOnlyInFlight(states: seq<State>, steps: seq<Step>, n: nat, k: nat)
    requires IsRun(states, steps) && n < |states| && k < |Told(states, n)| && Told(states, n)[k].Accepted?
    ensures Told(states, n)[k].flag
  {
    RunKeeps(states, steps, n);
    EntryAt(states[n].log, k);
  }

  /** A solicited cycle starts only after the cycle of this boot has reported a terminal status. */
  lemma SolicitedOnlyAfterBootCycle(states: seq<State>, steps: seq<Step>, n: nat)
    requires IsRun(states, steps) && n < |states|
    ensures states[n].boot != AtReset && states[n].kind == SolicitedMaintenance ==> TerminalBroadcast(Told(states, n))
    ensures forall k :: 0 <= k < |Told(states, n)| && Told(states, n)[k].Spawned? ==>
      Told(states, n)[k].kind == SolicitedMaintenance ==> TerminalBroadcast(Told(states, n)[..k])
  {
    RunKeeps(states, steps, n);
    DigestMeansBroadcasts(states[n].log);
    forall k | 0 <= k < |Told(states, n)| && Told(states, n)[k].Spawned? &&
      Told(states, n)[k].kind == SolicitedMaintenance
      ensures TerminalBroadcast(Told(states, n)[..k])
    {
      EntryAt(states[n].log, k);
      DigestMeansBroadcasts(Upto(states[n].log, k));
    }
  }

  /** In every reachable state the status word is well formed, so the handler's verdict is never INCOMPLETE. */
  lemma StatusWordStaysWellFormed(states: seq<State>, steps: seq<Step>, n: nat)
    requires IsRun(states, steps) && n < |states|
    ensures WellFormed(states[n].status)
    ensures Verdict(states[n].status) in {None, Some(Complete), Some(Error)}
    ensures states[n].mutex != HandlerJoining(Incomplete) && states[n].notify != Incomplete
  {
    RunKeeps(states, steps, n);
    IncompleteIsNeverBroadcast(states[n].log);
    VerdictIsNeverIncomplete(states[n].status);
    MasksMeanAllTasks(states[n].status);
  }

  /** What getMaintenanceActivityStatus reports is always the status last broadcast. */
  lemma ReportedStatusWasBroadcast(states: seq<State>, steps: seq<Step>, n: nat)
    requires IsRun(states, steps) && n < |states|
    ensures var told, notify := Told(states, n), states[n].notify;
      LastBroadcastIs(told, notify) || (NoBroadcast(told) && notify == Idle)
  {
    RunKeeps(states, steps, n);
    DigestMeansBroadcasts(states[n].log);
  }

  // ---- How a cycle can fail to end ----

  /** An ERROR event leaves the flag of its task true exactly if it was true before: the code never clears it. */
  lemma ErrorLeavesTheFlagIff(s: State, t: Task)
    ensures t in EventStep(s, Failed(t)).inFlight <==> t in s.inFlight
    ensures EventStep(s, Failed(t)).inFlight == s.inFlight
  {
    hide SetStatus, Verdict;
    assert t in s.inFlight ==> s.inFlight + {t} == s.inFlight;
  }

  /** An ERROR event leaves the flag of its task true, so a later COMPLETE event still counts as a success. */
  lemma CompleteAfterErrorIsAccepted(s: State, t: Task)
    requires s.mutex == Free && s.notify == Started && !s.abort && t in s.inFlight
    ensures var failed := ApplyEvent(s, Failed(t));
      && Completed(failed.status, t) && t in failed.inFlight
      && (Verdict(failed.status) == None ==>
            var s1 := EventStep(s, Failed(t));
            s1 == failed && Succeeded(ApplyEvent(s1, Done(t)).status, t) && t !in ApplyEvent(s1, Done(t)).inFlight)
  {
    SetComplete(s.status, t, t);
    var failed := ApplyEvent(s, Failed(t));
    SetSuccess(failed.status, t, t);
    SetComplete(SetStatus(failed.status, SuccessBit(t)), t, t);
  }

  /** A cycle whose worker has returned. */
  predicate Orphaned(s: State) { s.notify == Started && s.mutex == Free && s.threads.live == map[] }

  predicate EndsCycle(step: Step) { step.Event? || step.StopRequest? }

  lemma OrphanStep(s: State, step: Step)
    requires Inv(s) && Orphaned(s) && Enabled(s, step) && !EndsCycle(step)
    ensures Orphaned(Next(s, step))
  {}

  /** Once the worker has returned, however its last task ended, the status stays STARTED as long as no IARM event
      and no stop request arrives: a launch failure or a timeout of the last task ends no cycle by itself. */
  lemma {:induction false} OnlyAnEventOrStopEndsTheCycle(states: seq<State>, steps: seq<Step>, k: nat)
    requires IsExecution(states, steps) && Inv(states[0]) && Orphaned(states[0]) && k < |states|
    requires forall j :: 0 <= j < |steps| ==> !EndsCycle(steps[j])
    ensures Orphaned(states[k])
  {
    if k > 0 {
      OnlyAnEventOrStopEndsTheCycle(states, steps, k - 1);
      ExecutionKeeps(states, steps, k - 1);
      OrphanStep(states[k - 1], steps[k - 1]);
    }
  }
}

/** The history of a maintenance run: what was broadcast, which worker threads were started, and the evidence
    that tasks really completed. The running system keeps no such log; it is what the properties talk about. */
module MaintenanceHistory {
  import opened TaskStatus

  datatype Source = ByBoot | ByWorker | ByHandler | ByStop

  datatype Kind = SolicitedMaintenance | UnsolicitedMaintenance

  /** `g_whoami_support_enabled` and `g_suppress_maintenance_enabled`. */
  datatype Config = Config(whoAmI: bool, suppress: bool)

  datatype Activation =
    | ActivationConnect | ActivationReady | NotActivated | ActivationDisconnect | Activated | InvalidActivation

  /** The activation reasons for which the worker leaves the firmware alone. */
  predicate SkipsFirmware(cfg: Config, a: Activation) {
    !cfg.whoAmI && cfg.suppress && (a == ActivationConnect || a == ActivationReady || a == NotActivated)
  }

  datatype Entry =
    | Reset                                                // g_task_status := 0
    | Broadcast(status: Status, origin: Source, live: nat)     // onMaintenanceStatusChange, with the workers alive then
    | Spawned(kind: Kind, live: nat)                       // std::thread started, with the workers alive just before
    | Accepted(task: Task, flag: bool)                     // a COMPLETE event acted upon, with the task's flag then
    | FirmwareSkipped(cfg: Config, activation: Activation) // the worker skipped SWUPDATE on this activation answer
    | TimedOut(task: Task)
    | LaunchFailed(task: Task)
    | TimeRecorded                                         // LastSuccessfulCompletionTime rewritten

  /** The entries so far, the latest outermost. */
  datatype History = Start | Then(past: History, entry: Entry)

  predicate Terminal(st: Status) { st == Error || st == Complete || st == Incomplete }

  /** What a history amounts to at one moment. */
  datatype Digest = Digest(
    last: Status,           // the status last broadcast; IDLE before the first broadcast
    anyBroadcast: bool,
    anyTerminal: bool,      // some terminal status was broadcast
    proven: set<Task>)      // the tasks with evidence of success since g_task_status was last reset

  const EMPTY_DIGEST := Digest(Idle, false, false, {})

  function Extend(d: Digest, e: Entry): Digest {
    match e
    case Reset => d.(proven := {})
    case Broadcast(st, _, _) => Digest(st, true, d.anyTerminal || Terminal(st), d.proven)
    case Accepted(t, true) => d.(proven := d.proven + {t})
    case FirmwareSkipped(_, _) => d.(proven := d.proven + {SWUPDATE})
    case _ => d
  }

  function DigestOf(log: History): Digest {
    match log
    case Start => EMPTY_DIGEST
    case Then(past, e) => Extend(DigestOf(past), e)
  }

  /** Every task has evidence. */
  predicate AllProven(proven: set<Task>) { RFC in proven && SWUPDATE in proven && LOGUPLOAD in proven }

  /** What may be appended to a history. */
  predicate EntryOk(d: Digest, e: Entry) {
    match e
    case Broadcast(st, origin, live) =>
      && live <= 1
      && (origin == ByHandler || origin == ByStop ==> live == 0)
      && (match st
          case Idle => origin == ByBoot && !d.anyBroadcast
          case Started => origin == ByWorker && d.anyBroadcast && d.last != Started
          case Error =>
            d.last == Started || (d.anyBroadcast && d.last == Idle && (origin == ByWorker || origin == ByBoot))
          case Complete => d.last == Started && origin == ByHandler && AllProven(d.proven)
          case Incomplete => false)
    case Spawned(kind, live) => live == 0 && (kind == SolicitedMaintenance ==> d.anyTerminal)
    case Accepted(_, flag) => flag
    case FirmwareSkipped(cfg, a) => SkipsFirmware(cfg, a)
    case TimeRecorded => AllProven(d.proven)
    case _ => true
  }

  predicate GoodLog(log: History) {
    match log
    case Start => true
    case Then(past, e) => GoodLog(past) && EntryOk(DigestOf(past), e)
  }

  lemma {:induction false} IncompleteIsNeverBroadcast(log: History)
    requires GoodLog(log)
    ensures DigestOf(log).last != Incomplete
  {
    match log
    case Start =>
    case Then(past, e) => IncompleteIsNeverBroadcast(past);
  }

  // ---- What this means for the entries in order ----

  function Entries(log: History): seq<Entry> {
    match log
    case Start => []
    case Then(past, e) => Entries(past) + [e]
  }

  function Upto(log: History, k: nat): (h: History)
    requires k <= |Entries(log)|
    ensures Entries(h) == Entries(log)[..k]
    ensures GoodLog(log) ==> GoodLog(h)
  {
    if k == |Entries(log)| then log
    else
      assert Entries(log)[..k] == Entries(log.past)[..k];
      Upto(log.past, k)
  }

  /** Entry `k` of a good history obeys the rule for what came before it. */
  lemma {:induction false} EntryAt(log: History, k: nat)
    requires GoodLog(log) && k < |Entries(log)|
    ensures EntryOk(DigestOf(Upto(log, k)), Entries(log)[k])
  {
    if k < |Entries(log.past)| {
      EntryAt(log.past, k);
    } else {
      assert Upto(log, k) == log.past;
    }
  }

  /** `e` happened since `g_task_status` was last reset. */
  ghost predicate Since(es: seq<Entry>, e: Entry) {
    exists k :: 0 <= k < |es| && es[k] == e && forall j :: k <= j < |es| ==> es[j] != Reset
  }

  lemma SinceAppended(es: seq<Entry>, e: Entry, x: Entry)
    ensures Since(es + [e], x) <==> e != Reset && (e == x || Since(es, x))
  {
    var l := es + [e];
    assert l[|es|] == e;
    if e != Reset && Since(es, x) {
      var k :| 0 <= k < |es| && es[k] == x && forall j :: k <= j < |es| ==> es[j] != Reset;
      assert l[k] == x && forall j :: k <= j < |l| ==> l[j] != Reset;
    }
    if Since(l, x) {
      var k :| 0 <= k < |l| && l[k] == x && forall j :: k <= j < |l| ==> l[j] != Reset;
      if k < |es| {
        assert es[k] == x && forall j :: k <= j < |es| ==> es[j] == l[j];
      }
    }
  }

  /** SWUPDATE was skipped for one of the activation reasons since `g_task_status` was last reset. */
  ghost predicate SkippedForActivation(es: seq<Entry>) {
    exists cfg, a :: SkipsFirmware(cfg, a) && Since(es, FirmwareSkipped(cfg, a))
  }

  lemma SkipAppended(es: seq<Entry>, e: Entry)
    ensures SkippedForActivation(es + [e]) <==>
      e != Reset && (SkippedForActivation(es) || (e.FirmwareSkipped? && SkipsFirmware(e.cfg, e.activation)))
  {
    hide Since, SkipsFirmware;
    forall cfg, a ensures Since(es + [e], FirmwareSkipped(cfg, a)) <==>
      e != Reset && (e == FirmwareSkipped(cfg, a) || Since(es, FirmwareSkipped(cfg, a)))
    {
      SinceAppended(es, e, FirmwareSkipped(cfg, a));
    }
  }

  /** A task counts as proven exactly when, since the last reset, a COMPLETE event of its own was accepted with its flag
      true, or, for the firmware task, the worker skipped it for an activation reason. */
  lemma {:induction false} ProvenMeansEvidence(log: History, t: Task)
    requires GoodLog(log)
    ensures t in DigestOf(log).proven <==>
      Since(Entries(log), Accepted(t, true)) || (t == SWUPDATE && SkippedForActivation(Entries(log)))
  {
    match log
    case Start =>
    case Then(past, e) =>
      ProvenMeansEvidence(past, t);
      SinceAppended(Entries(past), e, Accepted(t, true));
      SkipAppended(Entries(past), e);
  }

  /** `st` is the status of the last broadcast among the entries, if there is one. */
  ghost predicate LastBroadcastIs(es: seq<Entry>, st: Status) {
    exists j :: 0 <= j < |es| && es[j].Broadcast? && es[j].status == st &&
      forall i :: j < i < |es| ==> !es[i].Broadcast?
  }

  ghost predicate NoBroadcast(es: seq<Entry>) {
    forall i :: 0 <= i < |es| ==> !es[i].Broadcast?
  }

  ghost predicate TerminalBroadcast(es: seq<Entry>) {
    exists i :: 0 <= i < |es| && es[i].Broadcast? && Terminal(es[i].status)
  }

  lemma BroadcastAppended(es: seq<Entry>, e: Entry)
    ensures e.Broadcast? ==> LastBroadcastIs(es + [e], e.status)
    ensures !e.Broadcast? ==> forall st :: LastBroadcastIs(es, st) ==> LastBroadcastIs(es + [e], st)
    ensures NoBroadcast(es + [e]) <==> NoBroadcast(es) && !e.Broadcast?
    ensures TerminalBroadcast(es + [e]) <==> TerminalBroadcast(es) || (e.Broadcast? && Terminal(e.status))
  {
    var l := es + [e];
    assert l[|es|] == e;
    assert forall i :: 0 <= i < |es| ==> l[i] == es[i];
    if TerminalBroadcast(es) {
      var i :| 0 <= i < |es| && es[i].Broadcast? && Terminal(es[i].status);
      assert l[i] == es[i];
    }
    forall st | !e.Broadcast? && LastBroadcastIs(es, st) ensures LastBroadcastIs(l, st) {
      var j :| 0 <= j < |es| && es[j].Broadcast? && es[j].status == st &&
        forall i :: j < i < |es| ==> !es[i].Broadcast?;
      assert l[j] == es[j];
    }
  }

  lemma {:induction false} DigestMeansBroadcasts(log: History)
    ensures DigestOf(log).anyBroadcast ==> LastBroadcastIs(Entries(log), DigestOf(log).last)
    ensures !DigestOf(log).anyBroadcast ==> NoBroadcast(Entries(log)) && DigestOf(log).last == Idle
    ensures DigestOf(log).anyTerminal <==> TerminalBroadcast(Entries(log))
  {
    match log
    case Start =>
    case Then(past, e) =>
      DigestMeansBroadcasts(past);
      BroadcastAppended(Entries(past), e);
  }
}

/** The 16-bit task status word `g_task_status`: its bits, its masks and the verdict drawn from it. */
module TaskStatus {
  import opened Wrappers

  datatype Task = RFC | SWUPDATE | LOGUPLOAD

  /** `Maint_notify_status_t`. */
  datatype Status = Idle | Started | Error | Complete | Incomplete

  const TASKS_COMPLETED: bv16 := 0x2A
  const ALL_TASKS_SUCCESS: bv16 := 0x3F
  const MAINTENANCE_TASK_SKIPPED: bv16 := 0x200

  // Bit numbers 0..7 of the status word, as masks.
  function SuccessBit(t: Task): bv16 {
    match t case RFC => 0x01 case LOGUPLOAD => 0x04 case SWUPDATE => 0x10
  }

  function CompleteBit(t: Task): bv16 {
    match t case RFC => 0x02 case LOGUPLOAD => 0x08 case SWUPDATE => 0x20
  }

  const REBOOT_REQUIRED: bv16 := 0x40
  const TASK_SKIPPED: bv16 := 0x80

  function SetStatus(v: bv16, m: bv16): bv16 { v | m }

  predicate CheckStatus(v: bv16, m: bv16) { v & m != 0 }

  predicate Succeeded(v: bv16, t: Task) { CheckStatus(v, SuccessBit(t)) }

  predicate Completed(v: bv16, t: Task) { CheckStatus(v, CompleteBit(t)) }

  predicate AllCompleted(v: bv16) { v & TASKS_COMPLETED == TASKS_COMPLETED }

  predicate AllSucceeded(v: bv16) { v & ALL_TASKS_SUCCESS == ALL_TASKS_SUCCESS }

  /** The verdict of the event handler, once every task is complete, under the given "skipped" mask. */
  function VerdictWith(v: bv16, skippedMask: bv16): Option<Status> {
    if !AllCompleted(v) then None
    else if AllSucceeded(v) then Some(Complete)
    else if v & skippedMask == skippedMask then Some(Incomplete)
    else Some(Error)
  }

  function Verdict(v: bv16): Option<Status> { VerdictWith(v, MAINTENANCE_TASK_SKIPPED) }

  /** Only bits 0 to 7 are used, and no task has succeeded without having completed. */
  predicate WellFormed(v: bv16) {
    && v & 0xFF00 == 0
    && forall t: Task :: Succeeded(v, t) ==> Completed(v, t)
  }

  lemma SetOther(v: bv16, m: bv16, k: bv16)
    requires m & k == 0
    ensures SetStatus(v, m) & k == v & k
  {}

  lemma SetSame(v: bv16, m: bv16)
    requires m != 0
    ensures CheckStatus(SetStatus(v, m), m)
  {}

  lemma SetSuccess(v: bv16, t: Task, u: Task)
    ensures Succeeded(SetStatus(v, SuccessBit(t)), u) <==> t == u || Succeeded(v, u)
    ensures Completed(SetStatus(v, SuccessBit(t)), u) <==> Completed(v, u)
  {
    SetSame(v, SuccessBit(t));
    SetOther(v, SuccessBit(t), CompleteBit(u));
    if t != u { SetOther(v, SuccessBit(t), SuccessBit(u)); }
  }

  lemma SetComplete(v: bv16, t: Task, u: Task)
    ensures Completed(SetStatus(v, CompleteBit(t)), u) <==> t == u || Completed(v, u)
    ensures Succeeded(SetStatus(v, CompleteBit(t)), u) <==> Succeeded(v, u)
  {
    SetSame(v, CompleteBit(t));
    SetOther(v, CompleteBit(t), SuccessBit(u));
    if t != u { SetOther(v, CompleteBit(t), CompleteBit(u)); }
  }

  /** A task's success is recorded with both bits; nothing else about other tasks changes. */
  lemma RecordSuccess(v: bv16, t: Task)
    requires WellFormed(v)
    ensures var r := SetStatus(SetStatus(v, SuccessBit(t)), CompleteBit(t));
      && WellFormed(r)
      && forall u: Task ::
        (Succeeded(r, u) <==> t == u || Succeeded(v, u)) && (Completed(r, u) <==> t == u || Completed(v, u))
  {
    var mid := SetStatus(v, SuccessBit(t));
    var r := SetStatus(mid, CompleteBit(t));
    SetOther(v, SuccessBit(t), 0xFF00);
    SetOther(mid, CompleteBit(t), 0xFF00);
    forall u: Task
      ensures (Succeeded(r, u) <==> t == u || Succeeded(v, u)) && (Completed(r, u) <==> t == u || Completed(v, u))
    {
      SetSuccess(v, t, u);
      SetComplete(mid, t, u);
    }
  }

  lemma RecordComplete(v: bv16, t: Task)
    requires WellFormed(v)
    ensures var r := SetStatus(v, CompleteBit(t));
      && WellFormed(r)
      && forall u: Task :: (Succeeded(r, u) <==> Succeeded(v, u)) && (Completed(r, u) <==> t == u || Completed(v, u))
  {
    var r := SetStatus(v, CompleteBit(t));
    SetOther(v, CompleteBit(t), 0xFF00);
    forall u: Task
      ensures (Succeeded(r, u) <==> Succeeded(v, u)) && (Completed(r, u) <==> t == u || Completed(v, u))
    {
      SetComplete(v, t, u);
    }
  }

  /** The reboot and skipped bits leave every task's bits alone. */
  lemma RecordOther(v: bv16, m: bv16)
    requires WellFormed(v) && (m == REBOOT_REQUIRED || m == TASK_SKIPPED)
    ensures var r := SetStatus(v, m);
      && WellFormed(r)
      && forall u: Task :: (Succeeded(r, u) <==> Succeeded(v, u)) && (Completed(r, u) <==> Completed(v, u))
  {
    var r := SetStatus(v, m);
    SetOther(v, m, 0xFF00);
    forall u: Task
      ensures (Succeeded(r, u) <==> Succeeded(v, u)) && (Completed(r, u) <==> Completed(v, u))
    {
      SetOther(v, m, SuccessBit(u));
      SetOther(v, m, CompleteBit(u));
    }
  }

  /** The two masks say exactly what their names say of the individual bits. */
  lemma MasksMeanAllTasks(v: bv16)
    ensures AllCompleted(v) <==> forall t: Task :: Completed(v, t)
    ensures AllSucceeded(v) <==> forall t: Task :: Completed(v, t) && Succeeded(v, t)
  {
    assert v & TASKS_COMPLETED == TASKS_COMPLETED <==> v & 0x02 != 0 && v & 0x20 != 0 && v & 0x08 != 0;
    assert v & ALL_TASKS_SUCCESS == ALL_TASKS_SUCCESS <==>
      v & 0x02 != 0 && v & 0x20 != 0 && v & 0x08 != 0 && v & 0x01 != 0 && v & 0x04 != 0 && v & 0x10 != 0;
    if forall t: Task :: Completed(v, t) {
      assert Completed(v, RFC) && Completed(v, SWUPDATE) && Completed(v, LOGUPLOAD);
      if forall t: Task :: Succeeded(v, t) {
        assert Succeeded(v, RFC) && Succeeded(v, SWUPDATE) && Succeeded(v, LOGUPLOAD);
      }
    }
  }

  /** On a well-formed word the verdict is COMPLETE exactly when every task succeeded, ERROR when some completed task
      did not, and never INCOMPLETE: the mask 0x200 names a bit no code sets. */
  lemma VerdictIsNeverIncomplete(v: bv16)
    requires WellFormed(v)
    ensures Verdict(v) != Some(Incomplete)
    ensures Verdict(v) == Some(Complete) <==> forall t: Task :: Succeeded(v, t)
    ensures Verdict(v) == Some(Error) <==> (forall t: Task :: Completed(v, t)) && !(forall t: Task :: Succeeded(v, t))
  {
    MasksMeanAllTasks(v);
    assert v & 0xFF00 == 0 ==> v & 0x200 != 0x200;
  }

  /** With the bit that is really set (number 7), the verdict would be INCOMPLETE exactly for a skipped task. */
  lemma IntendedMaskWouldReportIncomplete(v: bv16)
    requires WellFormed(v)
    ensures VerdictWith(v, TASK_SKIPPED) != Verdict(v) <==>
      AllCompleted(v) && !AllSucceeded(v) && CheckStatus(v, TASK_SKIPPED)
    ensures VerdictWith(v, TASK_SKIPPED) != Verdict(v) ==>
      Verdict(v) == Some(Error) && VerdictWith(v, TASK_SKIPPED) == Some(Incomplete)
  {
    VerdictIsNeverIncomplete(v);
    assert v & 0x80 == 0x80 <==> v & 0x80 != 0;
  }
}

/** The packager object. Each method is a section of the program with its assignments and loops; its contract says that
    the object moves by the step of `PackagerProtocol` of that name. */
module PackagerImplementation {
  import opened Wrappers
  import opened PackagerProtocol
  import opened PackagerSafety
  import opened PackagerProgress

  datatype ErrorCode = ERROR_NONE | ERROR_INPROGRESS | ERROR_GENERAL

  class Packager {
    var install: Option<Report>
    var package: Option<string>
    var syncing: bool
    var opkg: bool
    var notifications: seq<Observer>
    var running: bool
    var pc: Pc
    var isInstall: bool
    ghost var slots: seq<Slot>         // what each element of `notifications` has received
    ghost var refs: multiset<Observer>
    ghost var accepted: nat
    ghost var finished: nat
    ghost var jobStart: nat
    ghost var published: seq<Report>
    ghost var opkgLog: seq<OpkgEvent>

    ghost function View(): State
      reads this
    {
      State(install, package, syncing, opkg, slots, refs, running, pc, isInstall, accepted, finished, jobStart,
            published, opkgLog)
    }

    ghost predicate Valid()
      reads this
    {
      notifications == ObserversOf(slots)
    }

    constructor ()
      ensures Valid() && Initial(View()) && Inv(View())
    {
      install, package, syncing, opkg, notifications := None, None, false, false, [];
      running, pc, isInstall := false, Asleep, false;
      slots, refs, accepted, finished, jobStart, published, opkgLog := [], multiset{}, 0, 0, 0, [], [];
      new;
      InitialInv(View());
    }

    // ---- Observers ----

    method Register(o: Observer)
      requires Valid() && Inv(View())
      modifies this`notifications, this`slots, this`refs
      ensures Valid() && View() == RegisterStep(old(View()), o)
      ensures Inv(View())
    {
      hide Inv;
      StepKeeps(View(), Step.Register(o));
      refs := refs + multiset{o};
      notifications := notifications + [o];
      ghost var greeting := Greet(View());
      slots := slots + [Slot(o, |published|, greeting, [])];
      if install.Some? {
        slots := slots[|slots| - 1 := slots[|slots| - 1].(got := [install.value])];
      }
      assert slots == RegisterStep(old(View()), o).slots;
    }

    static lemma ObserversWithout(slots: seq<Slot>, i: nat)
      requires i < |slots|
      ensures ObserversOf(slots[..i] + slots[i + 1..]) == ObserversOf(slots)[..i] + ObserversOf(slots)[i + 1..]
    {}

    /** std::find on `_notifications`. */
    method Find(o: Observer) returns (item: nat)
      requires Valid() && o in notifications
      ensures item < |notifications| && Listed(slots, o) && item == FirstSlot(slots, o)
    {
      item := 0;
      while notifications[item] != o
        invariant 0 <= item < |notifications| && forall j :: 0 <= j < item ==> notifications[j] != o
        decreases |notifications| - item
      {
        item := item + 1;
        assert exists i :: item <= i < |notifications| && notifications[i] == o;
      }
      assert slots[item].observer == o;
    }

    lemma ListedIfNotified(o: Observer)
      requires Valid() && o in notifications
      ensures Listed(slots, o)
    {
      var i :| 0 <= i < |notifications| && notifications[i] == o;
      assert slots[i].observer == o;
    }

    method Unregister(o: Observer)
      requires Valid() && Inv(View()) && o in notifications
      modifies this`notifications, this`slots, this`refs
      ensures Valid() && Listed(old(slots), o) && View() == UnregisterStep(old(View()), o)
      ensures Inv(View())
    {
      hide Inv, FirstSlot, ObserversOf;
      ListedIfNotified(o);
      StepKeeps(View(), Step.Unregister(o));
      var item := Find(o);
      ObserversWithout(slots, item);
      refs := refs - multiset{o};
      notifications := notifications[..item] + notifications[item + 1..];
      slots := slots[..item] + slots[item + 1..];
    }

    method NotifyStateChange()
      requires Valid() && Inv(View()) && pc == Dirty
      modifies this`slots, this`pc, this`published
      ensures Valid() && View() == NotifyStep(old(View()))
      ensures Inv(View())
    {
      hide Inv;
      StepKeeps(View(), Notify);
      var r := install.value;
      published := published + [r];
      pc := Installing;
      ghost var before := slots;
      for i := 0 to |notifications|
        invariant pc == Installing && published == old(published) + [r]
        invariant |slots| == |before| == |notifications|
        invariant forall j :: 0 <= j < i ==> slots[j] == before[j].(got := before[j].got + [r])
        invariant forall j :: i <= j < |slots| ==> slots[j] == before[j]
      {
        slots := slots[i := slots[i].(got := slots[i].got + [r])];
      }
      assert slots == Deliver(before, r);
    }

    method NotifyRepoSynced()
      requires Valid() && Inv(View()) && pc == Synced
      modifies this`syncing, this`pc, this`finished
      ensures Valid() && View() == NotifySyncedStep(old(View()))
      ensures Inv(View())
    {
      hide Inv;
      StepKeeps(View(), NotifySynced);
      if syncing {
        finished := finished + 1;
      }
      syncing := false;
      pc := if isInstall then Installing else BeforeBlock;
    }

    // ---- DoWork ----

    method FreeOPKG()
      modifies this`opkg, this`opkgLog
      ensures opkg == FreeOpkg(old(View())).opkg && opkgLog == FreeOpkg(old(View())).opkgLog
    {
      if opkg {
        opkgLog := opkgLog + [OpkgEvent.Free];
        opkg := false;
      }
    }

    method InitOPKG(initOk: bool)
      modifies this`opkg, this`opkgLog
      ensures opkg == initOk && opkgLog == old(opkgLog) + if initOk then [OpkgEvent.Init] else []
    {
      opkg := initOk;
      opkgLog := opkgLog + if initOk then [OpkgEvent.Init] else [];
    }

    /** Install when a package is given, SynchronizeRepository otherwise. */
    method DoWork(job: Option<string>, initOk: bool) returns (result: ErrorCode)
      requires Valid() && Inv(View())
      modifies this`install, this`package, this`syncing, this`opkg, this`running, this`accepted, this`jobStart,
        this`opkgLog
      ensures Valid() && View() == DoWorkStep(old(View()), job, initOk)
      ensures Inv(View())
      ensures result == if old(Job(View())) then ERROR_INPROGRESS else if initOk then ERROR_NONE else ERROR_GENERAL
    {
      hide Inv;
      DoWorkIsSafe(View(), job, initOk);
      result := ERROR_INPROGRESS;
      if install.None? && !syncing {
        assert package.None?;
        result := ERROR_NONE;
        if opkg {
          FreeOPKG();
        }
        InitOPKG(initOk);
        if opkg {
          Begin(job);
        } else {
          result := ERROR_GENERAL;
        }
      }
    }

    method Begin(job: Option<string>)
      modifies this`install, this`package, this`syncing, this`running, this`accepted, this`jobStart
      ensures running && accepted == old(accepted) + 1
      ensures job.Some? ==>
        package == job && install == Some(FRESH) && jobStart == |published| && syncing == old(syncing)
      ensures job.None? ==> syncing && package == old(package) && install == old(install) && jobStart == old(jobStart)
    {
      if job.Some? {
        package := job;
        install := Some(FRESH);
        jobStart := |published|;
      } else {
        syncing := true;
      }
      accepted := accepted + 1;
      running := true;
    }

    // ---- InstallThread::Worker ----

    method WorkerTest()
      requires Valid() && Inv(View()) && pc == Head
      modifies this`pc
      ensures Valid() && View() == TestStep(old(View()))
      ensures Inv(View())
    {
      hide Inv;
      StepKeeps(View(), Test);
      pc := if running then ReadJob else Asleep;
    }

    method WorkerRead()
      requires Valid() && Inv(View()) && pc == ReadJob
      modifies this`pc, this`isInstall
      ensures Valid() && View() == ReadStep(old(View()))
      ensures Inv(View())
    {
      hide Inv;
      StepKeeps(View(), Read);
      isInstall := install.Some?;
      assert !isInstall || package.Some?;
      pc := Scan;
    }

    /** BlockingSetupLocalRepoNoLock up to its update. */
    method WorkerScan(alwaysUpdateFirst: bool, directoryEmpty: bool)
      requires Valid() && Inv(View()) && pc == Scan
      modifies this`pc
      ensures Valid() && View() == ScanStep(old(View()), !alwaysUpdateFirst && !directoryEmpty)
      ensures pc == Installing <==> old(isInstall) && !alwaysUpdateFirst && !directoryEmpty
      ensures Inv(View())
    {
      hide Inv;
      StepKeeps(View(), ScanLists(!alwaysUpdateFirst && !directoryEmpty));
      var containFiles := false;
      if isInstall && !alwaysUpdateFirst {
        containFiles := !directoryEmpty;
      }
      assert isInstall || syncing;
      if containFiles {
        pc := Installing;
      } else {
        pc := Updating;
      }
    }

    method SetInstallState(st: InstallState)
      requires Valid() && Inv(View()) && st != IDLE && pc == Installing && install.Some?
      modifies this`install, this`pc
      ensures Valid() && View() == ChangeStep(old(View()), SetState(st))
      ensures Inv(View())
    {
      hide Inv;
      StepKeeps(View(), ChangeInfo(SetState(st)));
      install := Some(install.value.(state := st));
      pc := Dirty;
    }

    /** The error of an installation whose opkg call failed. */
    method SetInstallError(error: nat)
      requires Valid() && Inv(View()) && pc == Installing && install.Some? && error > 0
      modifies this`install, this`pc
      ensures Valid() && View() == ChangeStep(old(View()), SetError(error))
      ensures Inv(View())
    {
      hide Inv;
      StepKeeps(View(), ChangeInfo(SetError(error)));
      install := Some(install.value.(error := error));
      pc := Dirty;
    }

    /** InstallationProgessNoLock: what one callback sets and announces. */
    method InstallationProgress(c: Callback)
      requires Valid() && Inv(View()) && pc == Installing && install.Some?
      modifies this
      ensures Valid() && View() == Announce(old(View()), PackagerProgress.Published(old(install.value.state), c))
      ensures install.Some?
      ensures c.percentage == 100 ==> install.value.state == INSTALLED
      ensures c.percentage != 100 ==> LeavesPhase(old(install.value.state), c.action, install.value.state)
      ensures Inv(View())
    {
      hide Announce, Inv;
      ghost var s0 := View();
      ghost var told: seq<InstallState> := [];
      NothingAnnounced(s0);
      if c.action == InstallAction && install.value.state == DOWNLOADING {
        told := Tell(s0, told, DOWNLOADED);
      }
      var stateChanged := false;
      var next := install.value.state;
      match c.action {
        case DownloadAction =>
          if next != DOWNLOADING {
            next := DOWNLOADING;
            stateChanged := true;
          }
        case InstallAction =>
          if next != INSTALLING {
            next := INSTALLING;
            stateChanged := true;
          }
        case OtherAction =>
      }
      if stateChanged {
        told := Tell(s0, told, next);
      }
      if c.percentage == 100 {
        told := Tell(s0, told, INSTALLED);
      }
      assert told == PackagerProgress.Published(s0.install.value.state, c);
    }

    /** SetState followed by NotifyStateChange. */
    method Tell(ghost s0: State, ghost told: seq<InstallState>, st: InstallState) returns (ghost now: seq<InstallState>)
      requires Valid() && Inv(View()) && pc == Installing && install.Some? && View() == Announce(s0, told) && st != IDLE
      modifies this
      ensures Valid() && pc == Installing && install.Some? && install.value.state == st
      ensures Inv(View())
      ensures now == told + [st] && View() == Announce(s0, now)
    {
      hide Announce, Inv;
      SetInstallState(st);
      NotifyStateChange();
      now := told + [st];
      OneMoreAnnounced(s0, told, st);
    }

    method WorkerClear()
      requires Valid() && Inv(View()) && pc == Clear
      modifies this`install, this`package, this`finished, this`pc
      ensures Valid() && View() == ClearStep(old(View()))
      ensures Inv(View())
    {
      hide Inv;
      StepKeeps(View(), ClearJob);
      install := None;
      package := None;
      finished := finished + 1;
      pc := BeforeBlock;
    }

    method WorkerBlock()
      requires Valid() && Inv(View()) && pc == BeforeBlock
      modifies this`running, this`pc
      ensures Valid() && View() == BlockStep(old(View()))
      ensures Inv(View())
    {
      hide Inv;
      StepKeeps(View(), Step.Block);
      running := false;
      pc := Head;
    }
  }
}

/**
 * Safety of the job protocol over every run: untrusted build code never runs beside an app, at
 * most one app runs, and `apps.lock` is held while a sync unit lives.
 */
module JobSafety {
  import opened Prelude
  import opened Ledger
  import opened JobProtocol

  predicate HoldsRun(pc: Pc) {
    || pc.StartBothLocked? || pc.Scanning? || pc.Ready? || pc.StartUnlocking?
    || pc.StopLocked? || pc.StopUnlocking?
    || pc.MaintainingBoth?
    || pc.ResetBothLocked? || pc.ResetStopping? || pc.ResetClearing? || pc.ResetErasing? || pc.ResetUnlocking?
    || pc.JobSwapLocked? || pc.JobTrashed? || pc.JobSwapUnlock?
    || pc.DeleteSwapLocked? || pc.DeleteSwapUnlock?
  }

  predicate HoldsApps(pc: Pc) {
    !(|| pc.Asked? || pc.Finished? || pc.StopLocked? || pc.StopUnlocking? || pc.Preparing? || pc.Prepared?
      || pc.Discarding? || pc.JobUncontainedFail?)
  }

  /** The threads of one process and its two locks agree on who holds what. */
  predicate LocksAgree(w: World) {
    && AppsLockAgrees(w) && RunLockAgrees(w)
    && (!w.portal.Serving? ==> w.threads == map[])
    && (w.portal.Down? ==> w.appsLock.Free?)
  }

  predicate AppsLockAgrees(w: World) {
    && (forall t | t in w.threads :: HoldsApps(w.threads[t]) <==> w.appsLock == HeldBy(t))
    && (w.appsLock.HeldBy? ==> w.appsLock.owner in w.threads)
  }

  predicate RunLockAgrees(w: World) {
    && (forall t | t in w.threads :: HoldsRun(w.threads[t]) <==> w.runLock == Some(t))
    && (w.runLock.Some? ==> w.runLock.value in w.threads)
  }

  predicate Syncing(pc: Pc) {
    pc.JobSyncing? || pc.JobContainStop? || pc.JobContainCheck? || pc.JobUncontained?
  }

  /** A job past its check that no app unit conflicts with it. */
  predicate PastCheck(pc: Pc) {
    || pc.JobChecked? || pc.JobBegun? || pc.JobRunning? || pc.JobFetching? || pc.JobReady? || Syncing(pc)
    || pc.JobSynced? || pc.JobSwapLocked? || pc.JobTrashed? || pc.JobSwapUnlock? || pc.JobSwapped?
    || pc.JobRegistered? || pc.JobFailing? || IsDelete(pc)
  }

  /**
   * What the holder of `apps.lock` can rely on at each point of its work, about the running app
   * units and the apps of the ledger.
   */
  predicate UnitsOk(units: set<AppId>, apps: set<AppId>, pc: Pc) {
    && (pc.Scanning? ==> units <= pc.left + {pc.app} && pc.app in apps)
    && (pc.Ready? ==> units <= {pc.app} && pc.app in apps)
    && (pc.ResetStopping? ==> units <= pc.left)
    && (pc.ResetClearing? || pc.ResetErasing? ==> units == {})
    && (PastCheck(pc) ==> if pc.job.kind == Delete then pc.job.app !in units else units == {})
    && (Syncing(pc) || pc.JobReady? || pc.JobFetching? ==> pc.job.kind != Delete)
    && (IsDelete(pc) ==> pc.job.kind == Delete)
  }

  /** What the holder of `apps.lock` can rely on about the live sync units. */
  predicate SyncsOk(syncs: set<JobId>, pc: Pc) {
    if Syncing(pc) then syncs <= {pc.job.id} else syncs == {}
  }

  /** At most one app runs, and it is in the ledger. */
  predicate OneApp(units: set<AppId>, apps: set<AppId>) {
    (forall a, b | a in units && b in units :: a == b) && units <= apps
  }

  /** Locks, app units and what recovery has listed: true after every sequence of events. */
  predicate Inv(w: World) {
    && LocksAgree(w)
    && OneApp(w.units, w.ledger.apps.Keys)
    && (w.portal.Serving? && w.appsLock.HeldBy? ==> UnitsOk(w.units, w.ledger.apps.Keys, w.threads[w.appsLock.owner]))
    && (w.portal.Booting? ==> BootLists(w, w.portal.boot))
    && (!w.history.blind ==> SyncsGuarded(w))
    && (!w.history.exposed ==> !w.history.blind && Contained(w))
  }

  /** What recovery knows about sync units while it deals with them. */
  predicate BootLists(w: World, b: Boot) {
    && w.runLock.None? && (w.appsLock.Retained? ==> b == BootClean(false) || b.BootSweep? || b.BootFinalize?)
    && (b.BootStop? || b.BootRecheck? ==> w.syncs <= b.orphans)
    && (b.BootClean? && b.contained ==> w.syncs == {} && !w.history.exposed && !w.history.blind)
    && (HandlesOrphans(b) ==> !w.history.blind)
  }

  predicate HandlesOrphans(b: Boot) {
    b.BootList? || b.BootStop? || b.BootRecheck? || b.BootHold?
  }

  /** Once orphan units are dealt with, a live sync unit is the lock holder's own, or the process keeps the lock. */
  predicate SyncsGuarded(w: World) {
    && (w.portal.Booting? && !HandlesOrphans(w.portal.boot) ==> w.syncs == {} || w.appsLock.Retained?)
    && (w.portal.Serving? && w.appsLock.Free? ==> w.syncs == {})
    && (w.portal.Serving? && w.appsLock.HeldBy? && w.appsLock.owner in w.threads ==>
          SyncsOk(w.syncs, w.threads[w.appsLock.owner]))
  }

  /** No build code runs beside an app. */
  predicate Contained(w: World) {
    w.syncs != {} ==> w.units == {}
  }

  // ----- Locks -----

  /** A thread that has released `apps.lock`, or never took it, and will not. */
  predicate Over(pc: Pc) {
    pc.Finished? || pc.Discarding? || pc.JobUncontainedFail?
  }

  predicate AppsDisciplined(w: World, pc: Pc, e: Effect, next: Pc) {
    && (e.LockApps? ==> w.appsLock.Free?)
    && (if e.LockApps? then !HoldsApps(pc) && HoldsApps(next)
        else if e.UnlockApps? || e.KeepApps? then HoldsApps(pc) && !HoldsApps(next)
        else HoldsApps(pc) == HoldsApps(next))
  }

  predicate RunDisciplined(w: World, pc: Pc, e: Effect, next: Pc) {
    && (e.LockRun? ==> w.runLock.None?)
    && (if e.LockRun? then !HoldsRun(pc) && HoldsRun(next)
        else if e.UnlockRun? then HoldsRun(pc) && !HoldsRun(next)
        else HoldsRun(pc) == HoldsRun(next))
  }

  /** Which moves take and release which lock: the pcs say who holds what, and every effect respects it. */
  predicate Disciplined(w: World, pc: Pc, e: Effect, next: Pc) {
    && AppsDisciplined(w, pc, e, next) && RunDisciplined(w, pc, e, next)
    && (HoldsApps(pc) || e.LockApps? || e.Nothing? || e.LockRun? || e.UnlockRun? || e.Stage? || e.Unstage?
        || (e.Commit? && e.op.OpFail?))
    && (e.UnlockApps? ==> Over(next))
    && (e.KeepApps? <==> next.JobUncontainedFail?)
    && (Over(pc) ==> Over(next))
  }

  lemma StartDisciplined(w: World, pc: Pc, act: Act)
    ensures var m := StartMove(w, pc, act); m.Does? ==> Disciplined(w, pc, m.effect, m.next)
  {
  }

  lemma StopDisciplined(w: World, pc: Pc, act: Act)
    ensures var m := StopMove(w, pc, act); m.Does? ==> Disciplined(w, pc, m.effect, m.next)
  {
  }

  lemma MaintainDisciplined(w: World, pc: Pc, act: Act)
    ensures var m := MaintainMove(w, pc, act); m.Does? ==> Disciplined(w, pc, m.effect, m.next)
  {
  }

  lemma ProbeDisciplined(w: World, pc: Pc, act: Act)
    ensures var m := ProbeMove(w, pc, act); m.Does? ==> Disciplined(w, pc, m.effect, m.next)
  {
  }

  lemma ResetDisciplined(w: World, pc: Pc, act: Act)
    ensures var m := ResetMove(w, pc, act); m.Does? ==> Disciplined(w, pc, m.effect, m.next)
  {
  }

  lemma JobBeginDisciplined(w: World, pc: Pc, act: Act)
    ensures var m := JobBeginMove(w, pc, act); m.Does? ==> Disciplined(w, pc, m.effect, m.next)
  {
  }

  lemma JobSyncDisciplined(w: World, pc: Pc, act: Act)
    ensures var m := JobSyncMove(w, pc, act); m.Does? ==> Disciplined(w, pc, m.effect, m.next)
  {
  }

  lemma JobSwapDisciplined(w: World, pc: Pc, act: Act)
    ensures var m := JobSwapMove(w, pc, act); m.Does? ==> Disciplined(w, pc, m.effect, m.next)
  {
  }

  lemma JobEndDisciplined(w: World, pc: Pc, act: Act)
    ensures var m := JobEndMove(w, pc, act); m.Does? ==> Disciplined(w, pc, m.effect, m.next)
  {
  }

  lemma DeleteDisciplined(w: World, pc: Pc, act: Act)
    ensures var m := DeleteMove(w, pc, act); m.Does? ==> Disciplined(w, pc, m.effect, m.next)
  {
  }

  lemma MovesAreDisciplined(w: World, pc: Pc, act: Act)
    ensures var m := ThreadMove(w, pc, act); m.Does? ==> Disciplined(w, pc, m.effect, m.next)
  {
    StartDisciplined(w, pc, act);
    StopDisciplined(w, pc, act);
    MaintainDisciplined(w, pc, act);
    ProbeDisciplined(w, pc, act);
    ResetDisciplined(w, pc, act);
    JobBeginDisciplined(w, pc, act);
    JobSyncDisciplined(w, pc, act);
    JobSwapDisciplined(w, pc, act);
    JobEndDisciplined(w, pc, act);
    DeleteDisciplined(w, pc, act);
  }

  lemma ThreadKeepsAppsLock(w: World, t: Tid, e: Effect, next: Pc)
    requires AppsLockAgrees(w) && t in w.threads && AppsDisciplined(w, w.threads[t], e, next)
    ensures AppsLockAgrees(After(w, t, e, next))
  {
    assert HoldsApps(w.threads[t]) <==> w.appsLock == HeldBy(t);
  }

  lemma ThreadKeepsRunLock(w: World, t: Tid, e: Effect, next: Pc)
    requires RunLockAgrees(w) && t in w.threads && RunDisciplined(w, w.threads[t], e, next)
    ensures RunLockAgrees(After(w, t, e, next))
  {
    assert HoldsRun(w.threads[t]) <==> w.runLock == Some(t);
  }

  lemma ThreadKeepsLocks(w: World, t: Tid, e: Effect, next: Pc)
    requires LocksAgree(w) && w.portal.Serving? && t in w.threads && Disciplined(w, w.threads[t], e, next)
    ensures LocksAgree(After(w, t, e, next))
  {
    ThreadKeepsAppsLock(w, t, e, next);
    ThreadKeepsRunLock(w, t, e, next);
  }

  // ----- What the holder relies on -----

  function SyncsAfter(w: World, e: Effect): set<JobId> {
    if e.StartSync? then w.syncs + {e.id} else w.syncs
  }

  function UnitsAfter(w: World, e: Effect): set<AppId> {
    if e.StartUnit? then w.units + {e.app} else w.units
  }

  function KeysAfter(w: World, e: Effect): set<AppId> {
    if !e.Commit? then w.ledger.apps.Keys else
    match e.op
    case OpRegister(j, _) => w.ledger.apps.Keys + {j.app}
    case OpUnregister(j) => w.ledger.apps.Keys - {j.app}
    case OpFinishDelete(j) => w.ledger.apps.Keys - {j.app}
    case OpFailDelete(j, original) => w.ledger.apps.Keys + (if original.Some? then {j.app} else {})
    case OpErase => {}
    case _ => w.ledger.apps.Keys
  }

  lemma KeysAfterIsRight(w: World, e: Effect)
    ensures (if e.Commit? then LedgerAfter(w.ledger, e.op) else w.ledger).apps.Keys == KeysAfter(w, e)
  {
  }

  predicate Relies(w: World, pc: Pc) {
    OneApp(w.units, w.ledger.apps.Keys) && (HoldsApps(pc) ==> UnitsOk(w.units, w.ledger.apps.Keys, pc))
  }

  /** The move keeps to one app, and gives the next pc what it relies on. */
  predicate Honours(w: World, e: Effect, next: Pc) {
    && OneApp(UnitsAfter(w, e), KeysAfter(w, e))
    && (HoldsApps(next) ==> UnitsOk(UnitsAfter(w, e), KeysAfter(w, e), next))
  }

  lemma StartHonours(w: World, pc: Pc, act: Act)
    requires Relies(w, pc)
    ensures var m := StartMove(w, pc, act); m.Does? ==> Honours(w, m.effect, m.next)
  {
    if pc.Scanning? || pc.Ready? {
      ScanHonours(w, pc, act);
    } else {
      StartLocksHonour(w, pc, act);
    }
  }

  lemma ScanHonours(w: World, pc: Pc, act: Act)
    requires Relies(w, pc) && (pc.Scanning? || pc.Ready?)
    ensures var m := StartMove(w, pc, act); m.Does? ==> Honours(w, m.effect, m.next)
  {
  }

  lemma StartLocksHonour(w: World, pc: Pc, act: Act)
    requires Relies(w, pc) && !pc.Scanning? && !pc.Ready?
    ensures var m := StartMove(w, pc, act); m.Does? ==> Honours(w, m.effect, m.next)
  {
  }

  lemma MaintainHonours(w: World, pc: Pc, act: Act)
    requires Relies(w, pc)
    ensures var m := MaintainMove(w, pc, act); m.Does? ==> Honours(w, m.effect, m.next)
  {
  }

  lemma ProbeHonours(w: World, pc: Pc, act: Act)
    requires Relies(w, pc)
    ensures var m := ProbeMove(w, pc, act); m.Does? ==> Honours(w, m.effect, m.next)
  {
  }

  lemma ResetStoppingHonours(w: World, pc: Pc, act: Act)
    requires Relies(w, pc) && (pc.ResetBothLocked? || pc.ResetStopping?)
    ensures var m := ResetMove(w, pc, act); m.Does? ==> Honours(w, m.effect, m.next)
  {
  }

  lemma ResetErasingHonours(w: World, pc: Pc, act: Act)
    requires Relies(w, pc) && !(pc.ResetBothLocked? || pc.ResetStopping?)
    ensures var m := ResetMove(w, pc, act); m.Does? ==> Honours(w, m.effect, m.next)
  {
  }

  lemma JobBeginHonours(w: World, pc: Pc, act: Act)
    requires Relies(w, pc)
    ensures var m := JobBeginMove(w, pc, act); m.Does? ==> Honours(w, m.effect, m.next)
  {
  }

  lemma JobSyncHonours(w: World, pc: Pc, act: Act)
    requires Relies(w, pc)
    ensures var m := JobSyncMove(w, pc, act); m.Does? ==> Honours(w, m.effect, m.next)
  {
  }

  lemma JobSwapHonours(w: World, pc: Pc, act: Act)
    requires Relies(w, pc)
    ensures var m := JobSwapMove(w, pc, act); m.Does? ==> Honours(w, m.effect, m.next)
  {
  }

  lemma JobEndHonours(w: World, pc: Pc, act: Act)
    requires Relies(w, pc)
    ensures var m := JobEndMove(w, pc, act); m.Does? ==> Honours(w, m.effect, m.next)
  {
  }

  lemma DeleteHonours(w: World, pc: Pc, act: Act)
    requires Relies(w, pc)
    ensures var m := DeleteMove(w, pc, act); m.Does? ==> Honours(w, m.effect, m.next)
  {
  }

  lemma StopHonours(w: World, pc: Pc, act: Act)
    requires Relies(w, pc)
    ensures var m := StopMove(w, pc, act); m.Does? ==> Honours(w, m.effect, m.next)
  {
  }

  lemma MovesHonour(w: World, pc: Pc, act: Act)
    requires Relies(w, pc)
    ensures var m := ThreadMove(w, pc, act); m.Does? ==> Honours(w, m.effect, m.next)
  {
    StartHonours(w, pc, act);
    MaintainHonours(w, pc, act);
    ProbeHonours(w, pc, act);
    if pc.ResetBothLocked? || pc.ResetStopping? {
      ResetStoppingHonours(w, pc, act);
    } else {
      ResetErasingHonours(w, pc, act);
    }
    JobBeginHonours(w, pc, act);
    JobSyncHonours(w, pc, act);
    JobSwapHonours(w, pc, act);
    JobEndHonours(w, pc, act);
    DeleteHonours(w, pc, act);
    StopHonours(w, pc, act);
  }

  // ----- Sync units -----

  /** Where sync units and app units are started, and what a job that stops syncing has seen. */
  predicate SyncStep(w: World, pc: Pc, e: Effect, next: Pc) {
    && (e.StartSync? ==> pc.JobReady? && next == JobSyncing(pc.job) && e.id == pc.job.id)
    && (e.StartUnit? ==> pc.Ready?)
    && (Syncing(pc) && !e.KeepApps? ==> (Syncing(next) && next.job == pc.job) || pc.job.id !in w.syncs)
    && (Syncing(next) ==> Syncing(pc) || e.StartSync?)
    && (e.UnlockApps? ==> !Syncing(pc))
  }

  lemma StartStepsSync(w: World, pc: Pc, act: Act)
    ensures var m := StartMove(w, pc, act); m.Does? ==> SyncStep(w, pc, m.effect, m.next)
  {
  }

  lemma StopStepsSync(w: World, pc: Pc, act: Act)
    ensures var m := StopMove(w, pc, act); m.Does? ==> SyncStep(w, pc, m.effect, m.next)
  {
  }

  lemma MaintainStepsSync(w: World, pc: Pc, act: Act)
    ensures var m := MaintainMove(w, pc, act); m.Does? ==> SyncStep(w, pc, m.effect, m.next)
  {
  }

  lemma ProbeStepsSync(w: World, pc: Pc, act: Act)
    ensures var m := ProbeMove(w, pc, act); m.Does? ==> SyncStep(w, pc, m.effect, m.next)
  {
  }

  lemma ResetStepsSync(w: World, pc: Pc, act: Act)
    ensures var m := ResetMove(w, pc, act); m.Does? ==> SyncStep(w, pc, m.effect, m.next)
  {
  }

  lemma JobBeginStepsSync(w: World, pc: Pc, act: Act)
    ensures var m := JobBeginMove(w, pc, act); m.Does? ==> SyncStep(w, pc, m.effect, m.next)
  {
  }

  lemma JobSyncStepsSync(w: World, pc: Pc, act: Act)
    ensures var m := JobSyncMove(w, pc, act); m.Does? ==> SyncStep(w, pc, m.effect, m.next)
  {
  }

  lemma JobSwapStepsSync(w: World, pc: Pc, act: Act)
    ensures var m := JobSwapMove(w, pc, act); m.Does? ==> SyncStep(w, pc, m.effect, m.next)
  {
  }

  lemma JobEndStepsSync(w: World, pc: Pc, act: Act)
    ensures var m := JobEndMove(w, pc, act); m.Does? ==> SyncStep(w, pc, m.effect, m.next)
  {
  }

  lemma DeleteStepsSync(w: World, pc: Pc, act: Act)
    ensures var m := DeleteMove(w, pc, act); m.Does? ==> SyncStep(w, pc, m.effect, m.next)
  {
  }

  /** No thread starts or forgets a sync unit but the job it belongs to. */
  lemma MovesStepSync(w: World, pc: Pc, act: Act)
    ensures var m := ThreadMove(w, pc, act); m.Does? ==> SyncStep(w, pc, m.effect, m.next)
  {
    StartStepsSync(w, pc, act);
    StopStepsSync(w, pc, act);
    MaintainStepsSync(w, pc, act);
    ProbeStepsSync(w, pc, act);
    ResetStepsSync(w, pc, act);
    JobBeginStepsSync(w, pc, act);
    JobSyncStepsSync(w, pc, act);
    JobSwapStepsSync(w, pc, act);
    JobEndStepsSync(w, pc, act);
    DeleteStepsSync(w, pc, act);
  }

  /** The holder of `apps.lock` moves. */
  lemma HolderKeepsSyncs(w: World, pc: Pc, e: Effect, next: Pc)
    requires HoldsApps(pc) && SyncsOk(w.syncs, pc) && SyncStep(w, pc, e, next)
    ensures e.UnlockApps? ==> SyncsAfter(w, e) == {}
    ensures !e.UnlockApps? && !e.KeepApps? ==> SyncsOk(SyncsAfter(w, e), next)
  {
  }

  /** Another thread moves. */
  lemma OtherKeepsSyncs(w: World, pc: Pc, e: Effect, next: Pc)
    requires !HoldsApps(pc) && SyncStep(w, pc, e, next)
    ensures SyncsAfter(w, e) == w.syncs && !Syncing(next)
  {
  }

  lemma ThreadKeepsGuarded(w: World, t: Tid, e: Effect, next: Pc)
    requires LocksAgree(w) && SyncsGuarded(w) && w.portal.Serving? && t in w.threads
    requires Disciplined(w, w.threads[t], e, next) && SyncStep(w, w.threads[t], e, next)
    ensures SyncsGuarded(After(w, t, e, next))
  {
    var pc := w.threads[t];
    assert After(w, t, e, next).syncs == SyncsAfter(w, e);
    assert HoldsApps(pc) <==> w.appsLock == HeldBy(t);
    if HoldsApps(pc) {
      HolderKeepsSyncs(w, pc, e, next);
    } else {
      OtherKeepsSyncs(w, pc, e, next);
    }
  }

  lemma ThreadKeepsContained(w: World, t: Tid, e: Effect, next: Pc)
    requires LocksAgree(w) && SyncsGuarded(w) && Contained(w) && w.portal.Serving? && t in w.threads
    requires Relies(w, w.threads[t]) && SyncStep(w, w.threads[t], e, next)
    ensures Contained(After(w, t, e, next))
  {
    var pc := w.threads[t];
    if e.StartSync? || e.StartUnit? {
      assert HoldsApps(pc) && w.appsLock == HeldBy(t);
    }
  }

  lemma ThreadKeepsInv(w: World, t: Tid, act: Act)
    requires Inv(w)
    ensures var n := Next(w, Thread(t, act)); n.Some? ==> Inv(n.value)
  {
    var n := Next(w, Thread(t, act));
    if n.Some? {
      var pc := w.threads[t];
      var m := ThreadMove(w, pc, act);
      MovesAreDisciplined(w, pc, act);
      ThreadKeepsLocks(w, t, m.effect, m.next);
      KeysAfterIsRight(w, m.effect);
      MovesHonour(w, pc, act);
      MovesStepSync(w, pc, act);
      if !w.history.blind {
        ThreadKeepsGuarded(w, t, m.effect, m.next);
      }
      if !w.history.exposed {
        ThreadKeepsContained(w, t, m.effect, m.next);
      }
    }
  }

  // ----- Startup, systemd, arrivals and settings -----

  lemma BootKeepsInv(w: World, act: Act)
    requires Inv(w)
    ensures var n := Next(w, BootStep(act)); n.Some? ==> Inv(n.value)
  {
    if w.portal.Booting? {
      if HandlesOrphans(w.portal.boot) {
        OrphansKeepInv(w, act);
      } else {
        RecoveryKeepsInv(w, act);
      }
    }
  }

  lemma OrphansKeepInv(w: World, act: Act)
    requires Inv(w) && w.portal.Booting? && HandlesOrphans(w.portal.boot)
    ensures var n := BootNext(w, w.portal.boot, act); n.Some? ==> Inv(n.value)
  {
  }

  lemma RecoveryKeepsInv(w: World, act: Act)
    requires Inv(w) && w.portal.Booting? && !HandlesOrphans(w.portal.boot)
    ensures var n := BootNext(w, w.portal.boot, act); n.Some? ==> Inv(n.value)
  {
  }

  lemma OthersKeepInv(w: World, e: Event)
    requires Inv(w) && !e.Thread? && !e.BootStep?
    ensures var n := Next(w, e); n.Some? ==> Inv(n.value)
  {
  }

  lemma {:induction false} RunKeepsInv(events: seq<Event>)
    ensures Run(events).Some? ==> Inv(Run(events).value)
  {
    if events != [] {
      var before, e := events[..|events| - 1], events[|events| - 1];
      RunKeepsInv(before);
      if Run(events).Some? {
        var w := Run(before).value;
        match e {
          case Thread(t, act) => ThreadKeepsInv(w, t, act);
          case BootStep(act) => BootKeepsInv(w, act);
          case _ => OthersKeepInv(w, e);
        }
      }
    }
  }

  // ----- The theorems -----

  /** At most one app unit is ever active, and it is in the ledger: in every reachable state of every run. */
  lemma {:induction false} AtMostOneApp(events: seq<Event>)
    requires Run(events).Some?
    ensures var w := Run(events).value;
            (forall a, b | a in w.units && b in w.units :: a == b) && w.units <= w.ledger.apps.Keys
  {
    RunKeepsInv(events);
  }

  /** From the end of orphan handling on, a live sync unit means that `apps.lock` is held. */
  predicate Guarded(w: World) {
    var settled := w.portal.Serving? || (w.portal.Booting? && !HandlesOrphans(w.portal.boot));
    settled && w.syncs != {} ==> !w.appsLock.Free?
  }

  /** Whatever happened in earlier processes, one whose own start was not blind holds `apps.lock` while a sync unit lives. */
  lemma {:induction false} ProcessIsGuarded(events: seq<Event>)
    requires Run(events).Some? && !Run(events).value.history.blind
    ensures Guarded(Run(events).value)
  {
    RunKeepsInv(events);
  }

  /**
   * In every reachable state of every interleaving, while a dependency-sync unit lives no app unit
   * is active. The states excepted are those after a start that could neither stop an orphan unit
   * nor take the lock, until a start confirms that every sync unit is stopped.
   */
  lemma {:induction false} BuildCodeIsContained(events: seq<Event>)
    requires Run(events).Some? && !Run(events).value.history.exposed
    ensures var w := Run(events).value; (w.syncs != {} ==> w.units == {}) && Guarded(w)
  {
    RunKeepsInv(events);
  }

  lemma {:induction false} PrefixRuns(events: seq<Event>, i: nat)
    requires i <= |events| && Run(events).Some?
    ensures Run(events[..i]).Some?
    decreases |events|
  {
    if i == |events| {
      assert events[..i] == events;
    } else {
      var before := events[..|events| - 1];
      assert before[..i] == events[..i];
      PrefixRuns(before, i);
    }
  }

  /** One start that confirms every orphan stopped restores containment, until the next blind start. */
  lemma {:induction false} ContainedAgain(events: seq<Event>, i: nat)
    requires Run(events).Some? && i <= |events|
    requires Run(events[..i]).Some? && Run(events[..i]).value.portal == Booting(BootClean(true))
    requires forall k | i <= k <= |events| :: Run(events[..k]).Some? && !Run(events[..k]).value.history.blind
    ensures !Run(events).value.history.exposed
    ensures var w := Run(events).value; (w.syncs != {} ==> w.units == {}) && Guarded(w)
  {
    NotExposedAgain(events, i);
    BuildCodeIsContained(events);
  }

  lemma {:induction false} NotExposedAgain(events: seq<Event>, i: nat)
    requires Run(events).Some? && i <= |events|
    requires Run(events[..i]).Some? && Run(events[..i]).value.portal == Booting(BootClean(true))
    requires forall k | i <= k <= |events| :: Run(events[..k]).Some? && !Run(events[..k]).value.history.blind
    ensures !Run(events).value.history.exposed
  {
    assert events[..|events|] == events;
    RunKeepsInv(events);
    if i < |events| {
      var before := events[..|events| - 1];
      forall k | i <= k <= |before| ensures Run(before[..k]).Some? && !Run(before[..k]).value.history.blind {
        assert before[..k] == events[..k];
      }
      assert before[..i] == events[..i];
      NotExposedAgain(before, i);
      if Run(events).value.history.exposed {
        ExposureIsBlind(Run(before).value, events[|events| - 1]);
      }
    }
  }

  /** Only a blind start exposes. */
  lemma ExposureIsBlind(w: World, e: Event)
    requires !w.history.exposed && Next(w, e).Some? && Next(w, e).value.history.exposed
    ensures Next(w, e).value.history.blind
  {
  }

  /**
   * The exception is exact: a run stays guarded throughout if and only if none of its starts found a
   * live sync unit and then failed to take `apps.lock`.
   */
  lemma {:induction false} GuardedExactly(events: seq<Event>)
    requires Run(events).Some?
    ensures (forall i | 0 <= i <= |events| :: Run(events[..i]).Some? && Guarded(Run(events[..i]).value))
            <==> (forall i | 0 <= i <= |events| :: Run(events[..i]).Some? && !Run(events[..i]).value.history.blind)
  {
    forall i | 0 <= i <= |events| ensures Run(events[..i]).Some? {
      PrefixRuns(events, i);
    }
    if i :| 0 <= i <= |events| && Run(events[..i]).value.history.blind {
      var k := BlindStep(events[..i]);
      assert events[..i][..k] == events[..k];
      assert !Guarded(Run(events[..k]).value);
    } else {
      forall i | 0 <= i <= |events| ensures Run(events[..i]).Some? && Guarded(Run(events[..i]).value) {
        ProcessIsGuarded(events[..i]);
      }
    }
  }

  /** A run that ends blind was unguarded at the end of the start that went blind. */
  lemma {:induction false} BlindStep(events: seq<Event>) returns (i: nat)
    requires Run(events).Some? && Run(events).value.history.blind
    ensures i <= |events| && Run(events[..i]).Some? && !Guarded(Run(events[..i]).value)
  {
    var before := events[..|events| - 1];
    var w := Run(before).value;
    RunKeepsInv(before);
    if w.history.blind {
      i := BlindStep(before);
      assert before[..i] == events[..i];
    } else {
      i := |events|;
      assert events[..i] == events;
      var e := events[|events| - 1];
      assert e.BootStep? && w.portal == Booting(BootHold);
    }
  }

  // ----- The life of a lock -----

  /**
   * `apps.lock` is released exactly once per acquisition. A thread takes it only when it is free; it
   * lets go of it only while it is the holder, and then for good: the lock is free again, or the
   * process keeps it because a sync unit could not be contained. No other step of a thread moves it.
   */
  lemma {:induction false} LockReleasedOnce(events: seq<Event>, t: Tid, act: Act)
    requires Run(events).Some? && Next(Run(events).value, Thread(t, act)).Some?
    ensures var w := Run(events).value;
            var w' := Next(w, Thread(t, act)).value;
            var pc, pc' := w.threads[t], w'.threads[t];
            && (HoldsApps(pc) <==> w.appsLock == HeldBy(t))
            && (if !HoldsApps(pc) && HoldsApps(pc') then w.appsLock.Free? && w'.appsLock == HeldBy(t) && !Over(pc)
                else if HoldsApps(pc) && !HoldsApps(pc') then
                  Over(pc') && (if pc'.JobUncontainedFail? then w'.appsLock.Retained? else w'.appsLock.Free?)
                else w'.appsLock == w.appsLock)
            && (Over(pc) ==> Over(pc'))
  {
    RunKeepsInv(events);
    var w := Run(events).value;
    MovesAreDisciplined(w, w.threads[t], act);
  }
}

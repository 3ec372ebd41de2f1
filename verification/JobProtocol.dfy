/**
 * The app job protocol as a transition system: every request thread, `apps.lock` and `run.lock`,
 * the persisted ledger, the directory tree under `apps_dir`, the dependency-sync units and the app
 * units. Each ledger write, rename, unit start or stop and lock operation is one step. The Portal
 * can be killed between any two steps; threads and locks die with it, everything else survives,
 * and the next start runs the recovery of `api/app.py`.
 */
module JobProtocol {
  import opened Prelude
  import opened Ledger
  import Values

  type State = AppsState<Values.Raw, Values.Raw>
  type Record = AppRecord<Values.Raw, Values.Raw>
  type Tid = nat

  // ----- What survives the Portal -----

  /** A directory tree: still being written or deleted, or whole. */
  datatype Tree = Partial | Whole(version: nat, manifest: bool, venv: bool)

  /** `apps/<id>`, `.staging/<job>` and `.trash/<job>`. */
  datatype Disk = Disk(apps: map<AppId, Tree>, staging: map<JobId, Tree>, trash: map<string, Tree>)

  // ----- Threads -----

  datatype Job = Job(id: JobId, kind: JobKind, app: AppId)

  datatype Request =
    | StartApp(app: AppId)
    | StopApp(app: AppId)
    /** A platform job, with the display-firmware maintenance and the app restarts it may do. */
    | Maintain
    /** One locked section of the sweep, of a Portal update, or of a mutual-exclusion probe. */
    | Probe
    | Reset
    | RunJob(job: Job)

  /** Where a thread stands; the comment on each line says which locks it holds there. */
  datatype Pc =
    | Asked(request: Request)                                    // none
    | Finished                                                   // none
    | Probing                                                    // apps
    | StartLocked(app: AppId)                                    // apps
    | StartBothLocked(app: AppId)                                // both
    | Scanning(app: AppId, left: set<AppId>, restoring: bool)    // both
    | Ready(app: AppId, restoring: bool)                         // both
    | StartUnlocking                                             // both
    | StartUnlockingApps                                         // apps
    | StopLocked(app: AppId)                                     // run
    | StopUnlocking                                              // run
    | Maintaining                                                // apps
    | MaintainingBoth                                            // both
    | ResetLocked                                                // apps
    | ResetBothLocked                                            // both
    | ResetStopping(left: set<AppId>)                            // both
    | ResetClearing                                              // both
    | ResetErasing                                               // both
    | ResetUnlocking                                             // both
    | ResetUnlockingApps                                         // apps
    | Preparing(job: Job)                                        // none
    | Prepared(job: Job)                                         // none
    | Discarding(job: Job)                                       // none
    | JobLocked(job: Job)                                        // apps, from here on
    | JobChecked(job: Job)
    | JobBegun(job: Job)
    | JobRunning(job: Job)
    | JobFetching(job: Job)
    | JobReady(job: Job)
    | JobSyncing(job: Job)
    | JobContainStop(job: Job)
    | JobContainCheck(job: Job)
    | JobUncontained(job: Job)
    | JobUncontainedFail(job: Job)                               // none: the process keeps apps
    | JobSynced(job: Job)
    | JobSwapLocked(job: Job)                                    // both
    | JobTrashed(job: Job)                                       // both
    | JobSwapUnlock(job: Job)                                    // both
    | JobSwapped(job: Job)
    | JobRegistered(job: Job, registered: Record)
    | JobFailing(job: Job)
    | DeleteUnregistered(job: Job, original: Record)
    | DeleteSwapLocked(job: Job, original: Record)               // both
    | DeleteSwapUnlock(job: Job, original: Record)               // both
    | DeleteTrashed(job: Job, original: Record)
    | DeleteFailing(job: Job, failedOriginal: Option<Record>)
    | JobClosing(job: Job)
    | JobUnlocking

  /** How the next operation of a thread turns out. */
  datatype Act =
    /** It succeeds. */
    | Go
    /** It raises. */
    | Raise
    /** It concerns the app, unit or directory of this name. */
    | Choose(name: string)
    /** It yields this tree. */
    | Build(tree: Tree)
    /** It yields this record. */
    | Register(record: Record)

  // ----- The Portal process -----

  datatype Boot =
    | BootList
    | BootStop(orphans: set<JobId>, left: set<JobId>)
    | BootRecheck(orphans: set<JobId>)
    | BootHold
    | BootClean(contained: bool)
    | BootSweep
    | BootFinalize

  datatype Portal = Down | Booting(boot: Boot) | Serving

  datatype AppsLock = Free | HeldBy(owner: Tid) | Retained

  /**
   * What happened so far; no step reads it.
   *   accepted: the last job accepted since the Portal started or was reset
   *   jobApp, before, built: the app of the last job begun, its tree then, and the tree it synced
   *   tidy: startup recovery finished in this process, and no reset since left a tree behind
   *   blind: the last start found a sync unit it could not stop, and then could not take apps.lock either
   *   exposed: some start was blind, and none since has confirmed that every sync unit is stopped
   */
  datatype History = History(
    accepted: Option<JobId>,
    jobApp: Option<AppId>,
    before: Option<Tree>,
    built: Option<Tree>,
    tidy: bool,
    blind: bool,
    exposed: bool)

  /** `usedIds` are the job ids handed out so far; a new one is always fresh. */
  datatype World = World(
    portal: Portal,
    appsLock: AppsLock,
    runLock: Option<Tid>,
    syncs: set<JobId>,
    units: set<AppId>,
    ledger: State,
    disk: Disk,
    threads: map<Tid, Pc>,
    usedIds: set<JobId>,
    history: History)

  datatype Event =
    | Kill
    | Launch
    | BootStep(act: Act)
    | UnitExits(app: AppId)
    | SyncExits(id: JobId)
    | Arrive(t: Tid, request: Request)
    | Wrote(write: LedgerWrite<Values.Raw>)
    | Thread(t: Tid, act: Act)

  /** A device with an empty ledger, before its Portal ever ran. */
  const Factory: World :=
    World(Down, Free, None, {}, {}, JustApps(map[]), Disk(map[], map[], map[]), map[], {},
          History(None, None, None, None, false, false, false))

  // ----- Effects -----

  /** The writes of a job to the ledger, and the last write of a reset. */
  datatype LedgerOp =
    | OpBegin(job: Job)
    | OpRegister(job: Job, record: Record)
    | OpFail(job: Job, error: string, code: Option<string>)
    | OpUnregister(job: Job)
    | OpFinishDelete(job: Job)
    | OpFailDelete(job: Job, original: Option<Record>)
    | OpErase

  /** What one operation of a thread does to the world. */
  datatype Effect =
    | Nothing
    | LockApps | UnlockApps
    /** `retain_apps_lock_until_exit`. */
    | KeepApps
    | LockRun | UnlockRun
    | StartUnit(app: AppId)
    | StartSync(id: JobId)
    | Stage(id: JobId, tree: Tree)
    /** The sync unit is gone and left this tree. */
    | Synced(id: JobId, tree: Tree)
    | Unstage(id: JobId)
    | ClearStaging
    /** Rename `.staging/<job>` to `apps/<app>`. */
    | SwapIn(job: Job)
    /** Rename `apps/<app>` to `.trash/<id>`. */
    | TrashApp(app: AppId, id: string)
    | Commit(op: LedgerOp)

  /** What a thread does next, if the chosen outcome is possible there. */
  datatype Move = Stuck | Does(effect: Effect, next: Pc)

  /** The job as it is first recorded. The timestamps play no part in the protocol. */
  function NewJob(j: Job): AppJob {
    AppJob(j.id, j.kind, Running, if j.kind == Delete then "unregister" else "fetch", None, 0.0, None, None, None,
           false, [], [])
  }

  function DoneJob(j: Job): AppJob {
    NewJob(j).(state := Done, step := "cleanup", finishedAt := Some(0.0))
  }

  function FailedJob(j: Job): AppJob {
    NewJob(j).(state := Failed, error := Some("failed"), finishedAt := Some(0.0))
  }

  function LedgerAfter(s: State, op: LedgerOp): State {
    match op
    case OpBegin(j) => Begin(s, j.app, NewJob(j))
    case OpRegister(j, r) => WriteOwnRecord(s, j.app, r, j.kind == Update)
    case OpFail(j, error, code) => if s.currentJob.Some? then FailCurrentJob(s, j.app, error, code, 0.0) else s
    case OpUnregister(j) => Unregister(s, j.app, NewJob(j))
    case OpFinishDelete(j) => FinishDelete(s, j.app, DoneJob(j))
    case OpFailDelete(j, original) => FailDelete(s, j.app, original, FailedJob(j))
    case OpErase => JustApps(map[])
  }

  function DiskAfter(d: Disk, e: Effect): Disk {
    match e
    case Stage(id, tree) => d.(staging := d.staging[id := tree])
    case Synced(id, tree) => d.(staging := d.staging[id := tree])
    case Unstage(id) => d.(staging := d.staging - {id})
    case ClearStaging => d.(staging := map[])
    case SwapIn(j) =>
      if j.id in d.staging then d.(apps := d.apps[j.app := d.staging[j.id]], staging := d.staging - {j.id}) else d
    case TrashApp(a, id) =>
      if a in d.apps then d.(apps := d.apps - {a}, trash := d.trash[id := d.apps[a]]) else d
    case _ => d
  }

  function HistoryAfter(h: History, w: World, e: Effect): History {
    match e
    case Commit(OpBegin(j)) =>
      h.(accepted := Some(j.id), jobApp := Some(j.app), before := Get(w.disk.apps, j.app), built := None)
    case Commit(OpErase) => h.(accepted := None, jobApp := None, before := None, built := None,
                               tidy := h.tidy && w.disk.apps == map[])
    case Synced(_, tree) => h.(built := Some(tree))
    case _ => h
  }

  function AppsLockAfter(l: AppsLock, t: Tid, e: Effect): AppsLock {
    match e
    case LockApps => HeldBy(t)
    case UnlockApps => Free
    case KeepApps => Retained
    case _ => l
  }

  function RunLockAfter(l: Option<Tid>, t: Tid, e: Effect): Option<Tid> {
    match e
    case LockRun => Some(t)
    case UnlockRun => None
    case _ => l
  }

  /** The world after thread `t` had effect `e` and moved to `next`. */
  function After(w: World, t: Tid, e: Effect, next: Pc): World {
    w.(appsLock := AppsLockAfter(w.appsLock, t, e),
       runLock := RunLockAfter(w.runLock, t, e),
       syncs := if e.StartSync? then w.syncs + {e.id} else w.syncs,
       units := if e.StartUnit? then w.units + {e.app} else w.units,
       ledger := if e.Commit? then LedgerAfter(w.ledger, e.op) else w.ledger,
       disk := DiskAfter(w.disk, e),
       threads := w.threads[t := next],
       history := HistoryAfter(w.history, w, e))
  }

  // ----- What each thread does -----

  /** Where a start goes back to: its own unlocking, or the maintenance that restores the app. */
  function AfterStart(restoring: bool): Pc {
    if restoring then MaintainingBoth else StartUnlocking
  }

  /** `start_app` and `_start_app_locked`. */
  function StartMove(w: World, pc: Pc, act: Act): Move {
    match pc
    case Asked(StartApp(a)) =>
      if act != Go then Stuck else if w.appsLock.Free? then Does(LockApps, StartLocked(a)) else Does(Nothing, Finished)
    case StartLocked(a) =>
      if act == Go && w.runLock.None? then Does(LockRun, StartBothLocked(a))
      else if act == Raise && w.runLock.Some? then Does(UnlockApps, Finished)
      else Stuck
    case StartBothLocked(a) =>
      if a !in w.ledger.apps || w.ledger.currentJobApp.Some? then Does(Nothing, StartUnlocking)
      else Does(Nothing, Scanning(a, w.ledger.apps.Keys - {a}, false))
    case Scanning(a, left, r) =>
      if act.Choose? && act.name in left then
        (if act.name in w.units then Does(Nothing, AfterStart(r)) else Does(Nothing, Scanning(a, left - {act.name}, r)))
      else if act == Raise then Does(Nothing, AfterStart(r))
      else if act == Go && left == {} then Does(Nothing, Ready(a, r))
      else Stuck
    case Ready(a, r) => if act == Go then Does(StartUnit(a), AfterStart(r)) else Does(Nothing, AfterStart(r))
    case StartUnlocking => Does(UnlockRun, StartUnlockingApps)
    case StartUnlockingApps => Does(UnlockApps, Finished)
    case _ => Stuck
  }

  /** `stop_app`. The unit's own exit is an event of systemd. */
  function StopMove(w: World, pc: Pc, act: Act): Move {
    match pc
    case Asked(StopApp(a)) =>
      if act == Go && w.runLock.None? then Does(LockRun, StopLocked(a))
      else if act == Raise && w.runLock.Some? then Does(Nothing, Finished)
      else Stuck
    case StopLocked(a) => Does(Nothing, StopUnlocking)
    case StopUnlocking => Does(UnlockRun, Finished)
    case _ => Stuck
  }

  /** A platform job holds `apps.lock` throughout, and `run.lock` around stopping and restoring apps. */
  function MaintainMove(w: World, pc: Pc, act: Act): Move {
    match pc
    case Asked(Maintain) =>
      if act != Go then Stuck else if w.appsLock.Free? then Does(LockApps, Maintaining) else Does(Nothing, Finished)
    case Maintaining =>
      if act == Go && w.runLock.None? then Does(LockRun, MaintainingBoth)
      else if act == Raise then Does(UnlockApps, Finished)
      else Stuck
    case MaintainingBoth =>
      if act.Choose? && act.name in w.ledger.apps && w.ledger.currentJobApp.None? then
        Does(Nothing, Scanning(act.name, w.ledger.apps.Keys - {act.name}, true))
      else if act == Go then Does(UnlockRun, Maintaining)
      else Stuck
    case _ => Stuck
  }

  function ProbeMove(w: World, pc: Pc, act: Act): Move {
    match pc
    case Asked(Probe) =>
      if act != Go then Stuck else if w.appsLock.Free? then Does(LockApps, Probing) else Does(Nothing, Finished)
    case Probing => Does(UnlockApps, Finished)
    case _ => Stuck
  }

  /** `POST /apps/reset` and `reset_platform`. */
  function ResetMove(w: World, pc: Pc, act: Act): Move {
    match pc
    case Asked(Reset) =>
      if act != Go then Stuck else if w.appsLock.Free? then Does(LockApps, ResetLocked) else Does(Nothing, Finished)
    case ResetLocked => if w.runLock.None? then Does(LockRun, ResetBothLocked) else Does(UnlockApps, Finished)
    case ResetBothLocked =>
      if act == Go then Does(Nothing, ResetStopping(w.units)) else Does(Nothing, ResetUnlocking)
    case ResetStopping(left) =>
      if act.Choose? && act.name in left && act.name !in w.units then Does(Nothing, ResetStopping(left - {act.name}))
      else if act == Raise then Does(Nothing, ResetUnlocking)
      else if act == Go && left == {} then Does(Nothing, ResetClearing)
      else Stuck
    case ResetClearing => Does(ClearStaging, ResetErasing)
    // App trees that cannot be moved to the trash stay behind.
    case ResetErasing =>
      if act.Choose? && act.name in w.disk.apps then Does(TrashApp(act.name, act.name), ResetErasing)
      else if act == Go then Does(Commit(OpErase), ResetUnlocking)
      else Stuck
    case ResetUnlocking => Does(UnlockRun, ResetUnlockingApps)
    case ResetUnlockingApps => Does(UnlockApps, Finished)
    case _ => Stuck
  }

  /** Where a refused job request goes: an install removes its staged source. */
  function Refuse(j: Job): Pc {
    if j.kind == Install then Discarding(j) else Finished
  }

  /** From the request to the recorded job: `start_install`, `start_update`, `start_delete`. */
  function JobBeginMove(w: World, pc: Pc, act: Act): Move {
    match pc
    case Asked(RunJob(j)) =>
      if act != Go then Stuck
      else if j.kind == Install then Does(Stage(j.id, Partial), Preparing(j))
      else if w.appsLock.Free? then Does(LockApps, JobLocked(j))
      else Does(Nothing, Finished)
    case Preparing(j) =>
      if act.Build? && act.tree.Whole? && act.tree.manifest then Does(Stage(j.id, act.tree), Prepared(j))
      else Does(Nothing, Discarding(j))
    case Prepared(j) =>
      if act != Go then Stuck else if w.appsLock.Free? then Does(LockApps, JobLocked(j)) else Does(Nothing, Discarding(j))
    case Discarding(j) => Does(Unstage(j.id), Finished)
    case JobLocked(j) =>
      if act != Go || (if j.kind == Delete then j.app in w.units else w.units != {}) then Does(UnlockApps, Refuse(j))
      else Does(Nothing, JobChecked(j))
    case JobChecked(j) =>
      if (j.app in w.ledger.apps) == (j.kind == Install) then Does(UnlockApps, Refuse(j))
      else Does(Commit(OpBegin(j)), JobBegun(j))
    // The worker thread can fail to start.
    case JobBegun(j) => if act == Go then Does(Nothing, JobRunning(j)) else Does(UnlockApps, Finished)
    case _ => Stuck
  }

  /** Dependency sync and its containment: `_run_sync_dependencies`, `_contain_sync_unit`. */
  function JobSyncMove(w: World, pc: Pc, act: Act): Move {
    match pc
    case JobRunning(j) =>
      if j.kind == Delete then Stuck
      else if act != Go then Does(Nothing, JobFailing(j))
      else if j.kind == Install then Does(Nothing, JobReady(j))
      else Does(Stage(j.id, Partial), JobFetching(j))
    case JobFetching(j) =>
      if act.Build? && act.tree.Whole? && act.tree.manifest then Does(Stage(j.id, act.tree), JobReady(j))
      else Does(Nothing, JobFailing(j))
    case JobReady(j) =>
      if act == Go && j.id in w.disk.staging then Does(StartSync(j.id), JobSyncing(j)) else Does(Nothing, JobFailing(j))
    case JobSyncing(j) =>
      if act == Raise then Does(Nothing, JobContainStop(j))
      else if j.id in w.syncs then Stuck
      else if act.Build? && act.tree.Whole? && j.id in w.disk.staging then Does(Synced(j.id, act.tree), JobSynced(j))
      else Does(Nothing, JobFailing(j))
    case JobContainStop(j) => if act == Go then Does(Nothing, JobContainCheck(j)) else Does(Nothing, JobUncontained(j))
    case JobContainCheck(j) =>
      if act == Go && j.id !in w.syncs then Does(Nothing, JobFailing(j)) else Does(Nothing, JobUncontained(j))
    case JobUncontained(j) => Does(KeepApps, JobUncontainedFail(j))
    case JobUncontainedFail(j) => Does(Commit(OpFail(j, "sync", Some("sync_unit_uncontained"))), Finished)
    case _ => Stuck
  }

  predicate IsDoneRecord(r: Record, j: Job) {
    && r.id == j.app && r.lastJob.Some? && r.lastJob.value.id == j.id && r.lastJob.value.state == Done
  }

  /** The record an update writes when it could not remove the old tree: its job carries a note. */
  function WithLeftover(r: Record): (again: Record)
    requires r.lastJob.Some?
    ensures again == r.(lastJob := again.lastJob) && again.lastJob.Some?
    ensures again.lastJob.value == r.lastJob.value.(error := again.lastJob.value.error)
  {
    r.(lastJob := Some(r.lastJob.value.(error := Some("leftover"))))
  }

  /** The swap: the tails of `commit_install` and `update_git`. */
  function JobSwapMove(w: World, pc: Pc, act: Act): Move {
    match pc
    case JobSynced(j) =>
      if act != Go then Does(Nothing, JobFailing(j))
      else if j.kind == Install then
        (if j.id in w.disk.staging && j.app !in w.disk.apps then Does(SwapIn(j), JobSwapped(j))
         else Does(Nothing, JobFailing(j)))
      else if w.runLock.None? then Does(LockRun, JobSwapLocked(j))
      else Does(Nothing, JobFailing(j))
    case JobSwapLocked(j) =>
      if act != Go || j.app in w.units then Does(UnlockRun, JobFailing(j))
      else if j.app in w.disk.apps then Does(TrashApp(j.app, j.id), JobTrashed(j))
      else Does(Nothing, JobTrashed(j))
    case JobTrashed(j) =>
      if act == Go && j.id in w.disk.staging then Does(SwapIn(j), JobSwapUnlock(j)) else Does(UnlockRun, JobFailing(j))
    case JobSwapUnlock(j) => Does(UnlockRun, JobSwapped(j))
    case _ => Stuck
  }

  /** The last writes of a job, and its lock release. */
  function JobEndMove(w: World, pc: Pc, act: Act): Move {
    match pc
    case JobSwapped(j) =>
      if act.Register? && IsDoneRecord(act.record, j) then
        Does(Commit(OpRegister(j, act.record)), JobRegistered(j, act.record))
      else if act == Raise && j.kind == Update then Does(Nothing, JobFailing(j))
      else Stuck
    // An update that cannot remove the old tree writes its record once more, with a note.
    case JobRegistered(j, r) =>
      if act == Go then Does(Nothing, JobClosing(j))
      else if j.kind == Update && IsDoneRecord(r, j) then Does(Commit(OpRegister(j, WithLeftover(r))), JobClosing(j))
      else Stuck
    // A failing update purges its staging directory first, as far as that can be done.
    case JobFailing(j) =>
      if j.kind == Update && act == Go && j.id in w.disk.staging then Does(Unstage(j.id), JobFailing(j))
      else Does(Commit(OpFail(j, "failed", None)), if j.kind == Update then JobUnlocking else JobClosing(j))
    case JobClosing(j) => Does(if act == Go then Unstage(j.id) else Nothing, JobUnlocking)
    case JobUnlocking => Does(UnlockApps, Finished)
    case _ => Stuck
  }

  /** The worker of `start_delete`, with `purge_app_files`. */
  function DeleteMove(w: World, pc: Pc, act: Act): Move {
    match pc
    case JobRunning(j) =>
      if j.kind != Delete then Stuck
      else if j.app in w.ledger.apps then Does(Commit(OpUnregister(j)), DeleteUnregistered(j, w.ledger.apps[j.app]))
      else Does(Nothing, DeleteFailing(j, None))
    case DeleteUnregistered(j, r) =>
      if j.app !in w.disk.apps then Does(Nothing, DeleteTrashed(j, r))
      else if act == Go && w.runLock.None? then Does(LockRun, DeleteSwapLocked(j, r))
      else Does(Nothing, DeleteFailing(j, Some(r)))
    case DeleteSwapLocked(j, r) =>
      if act != Go || j.app in w.units then Does(UnlockRun, DeleteFailing(j, Some(r)))
      else Does(TrashApp(j.app, j.id), DeleteSwapUnlock(j, r))
    case DeleteSwapUnlock(j, r) => Does(UnlockRun, DeleteTrashed(j, r))
    case DeleteTrashed(j, r) =>
      if act == Go then Does(Commit(OpFinishDelete(j)), JobClosing(j)) else Does(Nothing, DeleteFailing(j, Some(r)))
    case DeleteFailing(j, r) => Does(Commit(OpFailDelete(j, r)), JobClosing(j))
    case _ => Stuck
  }

  predicate IsStart(pc: Pc) {
    || (pc.Asked? && pc.request.StartApp?) || pc.StartLocked? || pc.StartBothLocked? || pc.Scanning? || pc.Ready?
    || pc.StartUnlocking? || pc.StartUnlockingApps?
  }

  predicate IsService(pc: Pc) {
    || (pc.Asked? && (pc.request.StopApp? || pc.request.Maintain? || pc.request.Probe?))
    || pc.StopLocked? || pc.StopUnlocking? || pc.Maintaining? || pc.MaintainingBoth? || pc.Probing?
  }

  predicate IsReset(pc: Pc) {
    || (pc.Asked? && pc.request.Reset?) || pc.ResetLocked? || pc.ResetBothLocked? || pc.ResetStopping?
    || pc.ResetClearing? || pc.ResetErasing? || pc.ResetUnlocking? || pc.ResetUnlockingApps?
  }

  predicate IsJobBegin(pc: Pc) {
    || (pc.Asked? && pc.request.RunJob?) || pc.Preparing? || pc.Prepared? || pc.Discarding? || pc.JobLocked?
    || pc.JobChecked? || pc.JobBegun?
  }

  predicate IsJobSync(pc: Pc) {
    || (pc.JobRunning? && pc.job.kind != Delete) || pc.JobFetching? || pc.JobReady? || pc.JobSyncing?
    || pc.JobContainStop? || pc.JobContainCheck? || pc.JobUncontained? || pc.JobUncontainedFail?
  }

  predicate IsJobSwap(pc: Pc) {
    pc.JobSynced? || pc.JobSwapLocked? || pc.JobTrashed? || pc.JobSwapUnlock?
  }

  predicate IsDelete(pc: Pc) {
    || (pc.JobRunning? && pc.job.kind == Delete) || pc.DeleteUnregistered? || pc.DeleteSwapLocked?
    || pc.DeleteSwapUnlock? || pc.DeleteTrashed? || pc.DeleteFailing?
  }

  /** The one operation that a thread at `pc` does next, if `act` is a way it can turn out. */
  function ThreadMove(w: World, pc: Pc, act: Act): Move {
    if IsStart(pc) then StartMove(w, pc, act)
    else if IsService(pc) then
      (match pc
       case Asked(StopApp(_)) => StopMove(w, pc, act)
       case StopLocked(_) => StopMove(w, pc, act)
       case StopUnlocking => StopMove(w, pc, act)
       case Asked(Probe) => ProbeMove(w, pc, act)
       case Probing => ProbeMove(w, pc, act)
       case _ => MaintainMove(w, pc, act))
    else if IsReset(pc) then ResetMove(w, pc, act)
    else if IsJobBegin(pc) then JobBeginMove(w, pc, act)
    else if IsJobSync(pc) then JobSyncMove(w, pc, act)
    else if IsDelete(pc) then DeleteMove(w, pc, act)
    else if IsJobSwap(pc) then JobSwapMove(w, pc, act)
    else JobEndMove(w, pc, act)
  }

  // ----- Startup -----

  /** What `disk_state_checks` finds for the apps of a ledger. */
  function FoundOn(disk: Disk, apps: set<AppId>): (r: map<AppId, DiskCheck>)
    ensures r.Keys == apps
  {
    map a | a in apps ::
      (var tree := Get(disk.apps, a);
       DiskCheck(tree.Some? && tree.value.Whole? && tree.value.manifest,
                 tree.Some? && tree.value.Whole? && tree.value.venv))
  }

  function AtBoot(w: World, b: Boot): World {
    w.(portal := Booting(b))
  }

  /** `_stop_orphan_sync_units`, then cleanup, orphan sweep and finalize, as `_lifespan` runs them. */
  function BootNext(w: World, b: Boot, act: Act): Option<World> {
    match b
    case BootList => if act == Go then Some(AtBoot(w, BootStop(w.syncs, w.syncs))) else Some(AtBoot(w, BootHold))
    case BootStop(orphans, left) =>
      if act.Choose? && act.name in left then Some(AtBoot(w, BootStop(orphans, left - {act.name})))
      else if act == Raise && left != {} then Some(AtBoot(w, BootHold))
      else if act == Go && left == {} then Some(AtBoot(w, BootRecheck(orphans)))
      else None
    case BootRecheck(orphans) =>
      if orphans == {} || (act == Go && orphans * w.syncs == {}) then
        Some(AtBoot(w.(history := w.history.(exposed := false)), BootClean(true)))
      else Some(AtBoot(w, BootHold))
    case BootHold =>
      if act == Go then Some(AtBoot(w.(appsLock := Retained), BootClean(false)))
      else
        var blind := w.syncs != {};
        Some(AtBoot(w.(history := w.history.(blind := blind, exposed := w.history.exposed || blind)), BootClean(false)))
    case BootClean(contained) =>
      if contained && act.Choose? then
        Some(w.(disk := w.disk.(staging := w.disk.staging - {act.name}, trash := w.disk.trash - {act.name})))
      else if act == Go then Some(AtBoot(w, BootSweep))
      else Some(w.(portal := Serving))  // an exception is logged and startup goes on
    case BootSweep =>
      if act.Choose? && act.name in w.disk.apps && act.name !in w.ledger.apps then
        Some(w.(disk := DiskAfter(w.disk, TrashApp(act.name, act.name))))
      else if act == Raise then Some(w.(portal := Serving))
      else if act == Go && w.disk.apps.Keys <= w.ledger.apps.Keys then Some(AtBoot(w, BootFinalize))
      else None
    case BootFinalize =>
      if act == Go then
        Some(w.(ledger := FinalizeAppsState(w.ledger, FoundOn(w.disk, w.ledger.apps.Keys), 0.0),
                portal := Serving, history := w.history.(tidy := true)))
      else Some(w.(portal := Serving))
  }

  // ----- The whole system -----

  /** The world after an event, or None when the event cannot happen. */
  function Next(w: World, e: Event): Option<World> {
    match e
    case Kill =>
      if w.portal.Down? then None
      else Some(w.(portal := Down, appsLock := Free, runLock := None, threads := map[],
                   history := w.history.(accepted := None, tidy := false)))
    case Launch =>
      if w.portal.Down? then Some(AtBoot(w.(history := w.history.(blind := false)), BootList)) else None
    case BootStep(act) => if w.portal.Booting? then BootNext(w, w.portal.boot, act) else None
    case UnitExits(a) => Some(w.(units := w.units - {a}))
    case SyncExits(id) => Some(w.(syncs := w.syncs - {id}))
    case Arrive(t, request) =>
      if !w.portal.Serving? || t in w.threads || (request.RunJob? && request.job.id in w.usedIds) then None
      else
        var ids := if request.RunJob? then {request.job.id} else {};
        Some(w.(usedIds := w.usedIds + ids, threads := w.threads[t := Asked(request)]))
    case Wrote(write) => if w.portal.Serving? then Some(w.(ledger := Write(w.ledger, write))) else None
    case Thread(t, act) =>
      if w.portal.Serving? && t in w.threads then
        var move := ThreadMove(w, w.threads[t], act);
        if move.Does? then Some(After(w, t, move.effect, move.next)) else None
      else None
  }

  /** The world after a sequence of events from the factory state, if all of them can happen in turn. */
  function Run(events: seq<Event>): Option<World> {
    if events == [] then Some(Factory)
    else
      var w := Run(events[..|events| - 1]);
      if w.None? then None else Next(w.value, events[|events| - 1])
  }
}

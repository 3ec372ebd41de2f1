/**
 * The app ledger (`apps.json`): its records, and every transition the Portal writes to it.
 *
 * A transition is a function from the ledger that was just re-read to the ledger that is written
 * back; `StateStore.update_apps_state` runs each of them alone. The functions are used by the job
 * protocol (module JobProtocol); this module proves what they mean together.
 */
module Ledger {
  import opened Prelude

  type AppId = string
  type JobId = string
  type Time = real

  datatype JobKind = Install | Update | Delete

  datatype JobState = Running | Done | Failed

  datatype AppJob = AppJob(
    id: JobId,
    kind: JobKind,
    state: JobState,
    step: string,
    error: Option<string>,
    startedAt: Time,
    finishedAt: Option<Time>,
    displayName: Option<string>,
    errorCode: Option<string>,
    lockGenerated: bool,
    droppedBindings: seq<string>,
    droppedParams: seq<string>)

  /** A repository URL, the credential scope (`host/owner`) it belongs to, if any, and whether it is the official catalog's. */
  datatype Url = Url(text: string, hostOwner: Option<string>, official: bool)

  datatype RefKind = Branch | Tag

  datatype AppSource =
    | Zip(manifest: Option<string>)
    | Git(url: Url, ref: string, refKind: RefKind, subdir: Option<string>, commit: Option<string>,
          manifest: Option<string>)

  datatype BrokenReason = ManifestMissing | VenvMissing

  /** `V` is the type of a param value, `M` the type of a manifest snapshot. */
  datatype AppRecord<V, M> = AppRecord(
    id: AppId,
    name: string,
    source: AppSource,
    installedAt: Option<Time>,
    params: map<string, V>,
    autostart: bool,
    lastJob: Option<AppJob>,
    brokenReason: Option<BrokenReason>,
    credentialRejected: bool,
    updateAvailable: bool,
    latestCommit: Option<string>,
    manifest: M,
    requiresPython: Option<string>,
    ownerLabel: Option<string>)

  datatype AppsState<V, M> = AppsState(
    apps: map<AppId, AppRecord<V, M>>,
    currentJob: Option<AppJob>,
    currentJobApp: Option<AppId>,
    lastOrphanJob: Option<AppJob>,
    lastOrphanJobApp: Option<AppId>)

  /** A ledger with no job of any kind, holding just `apps`. */
  function JustApps<V, M>(apps: map<AppId, AppRecord<V, M>>): AppsState<V, M> {
    AppsState(apps, None, None, None, None)
  }

  // ----- Job transitions -----

  /** The first write of a job: it becomes the current one. */
  function Begin<V, M>(s: AppsState<V, M>, name: AppId, job: AppJob): AppsState<V, M> {
    s.(currentJob := Some(job), currentJobApp := Some(name))
  }

  /** Progress: the current job's step, when the current job is the one reporting. */
  function Advance<V, M>(s: AppsState<V, M>, name: AppId, step: string): AppsState<V, M> {
    if s.currentJob.Some? && s.currentJobApp == Some(name) then
      s.(currentJob := Some(s.currentJob.value.(step := step)))
    else
      s
  }

  /** Merge only what an install/update job owns onto the freshly re-read record. */
  function MergeJobRecord<V, M>(current: Option<AppRecord<V, M>>, job: AppRecord<V, M>): AppRecord<V, M> {
    match current
    case None => job
    case Some(c) =>
      var dropped := if job.lastJob.Some? then job.lastJob.value.droppedParams else [];
      c.(source := job.source,
         installedAt := job.installedAt,
         params := map k | k in c.params && k !in dropped :: c.params[k],
         lastJob := job.lastJob,
         brokenReason := job.brokenReason,
         manifest := job.manifest,
         requiresPython := job.requiresPython)
  }

  predicate ScopedTo<V, M>(r: AppRecord<V, M>, hostOwner: string) {
    r.source.Git? && r.source.url.hostOwner == Some(hostOwner)
  }

  /** A credential that was just rewritten, or just worked, is no longer marked rejected. */
  function ClearCredentialRejected<V, M>(apps: map<AppId, AppRecord<V, M>>, hostOwner: string)
    : map<AppId, AppRecord<V, M>>
  {
    map n | n in apps ::
      if apps[n].credentialRejected && ScopedTo(apps[n], hostOwner) then apps[n].(credentialRejected := false)
      else apps[n]
  }

  /** The last write of an install or update that succeeded. */
  function WriteOwnRecord<V, M>(s: AppsState<V, M>, name: AppId, record: AppRecord<V, M>, clearCredential: bool)
    : AppsState<V, M>
  {
    var merged := MergeJobRecord(Get(s.apps, name), record);
    var apps := s.apps[name := merged];
    if clearCredential && merged.source.Git? && merged.source.url.hostOwner.Some? then
      JustApps(ClearCredentialRejected(apps, merged.source.url.hostOwner.value))
    else
      JustApps(apps)
  }

  /** The last write of an install or update that failed. */
  function FailCurrentJob<V, M>(s: AppsState<V, M>, attachTo: AppId, error: string, code: Option<string>, now: Time)
    : AppsState<V, M>
    requires s.currentJob.Some?
  {
    var failed := s.currentJob.value.(state := Failed, error := Some(error), errorCode := code, finishedAt := Some(now));
    if attachTo in s.apps then
      JustApps(s.apps[attachTo := s.apps[attachTo].(lastJob := Some(failed))])
    else
      AppsState(s.apps, None, None, Some(failed), Some(attachTo))
  }

  /** First step of a delete: the record leaves the ledger before any file is touched. */
  function Unregister<V, M>(s: AppsState<V, M>, name: AppId, job: AppJob): AppsState<V, M> {
    AppsState(s.apps - {name}, Some(job.(step := "cleanup")), Some(name), None, None)
  }

  /** Last write of a delete that succeeded. */
  function FinishDelete<V, M>(s: AppsState<V, M>, name: AppId, done: AppJob): AppsState<V, M> {
    AppsState(s.apps - {name}, None, None, Some(done), Some(name))
  }

  /** Last write of a delete that failed: the record it had dropped, if any, comes back. */
  function FailDelete<V, M>(s: AppsState<V, M>, name: AppId, original: Option<AppRecord<V, M>>, failed: AppJob)
    : AppsState<V, M>
  {
    match original
    case Some(r) => JustApps(s.apps[name := r.(lastJob := Some(failed))])
    case None => AppsState(s.apps, None, None, Some(failed), Some(name))
  }

  // ----- Startup -----

  /** What startup finds on disk for one app. */
  datatype DiskCheck = DiskCheck(manifestExists: bool, venvExists: bool)

  function ReconcileBroken<V, M>(r: AppRecord<V, M>, found: DiskCheck): AppRecord<V, M> {
    if !found.manifestExists then r.(brokenReason := Some(ManifestMissing))
    else if !found.venvExists then r.(brokenReason := Some(VenvMissing))
    else if r.brokenReason.Some? then r.(brokenReason := None)
    else r
  }

  /** Resolve the job a dead process left behind, and re-check every app against the disk. */
  function FinalizeAppsState<V, M>(s: AppsState<V, M>, found: map<AppId, DiskCheck>, now: Time): AppsState<V, M>
    requires s.apps.Keys <= found.Keys
  {
    var apps :=
      if s.currentJob.Some? && s.currentJob.value.state == Running
         && s.currentJobApp.Some? && s.currentJobApp.value in s.apps
      then
        var interrupted :=
          s.currentJob.value.(state := Failed, error := Some("interrupted"), finishedAt := Some(now));
        var target := s.currentJobApp.value;
        s.apps[target := s.apps[target].(lastJob := Some(interrupted))]
      else
        s.apps;
    JustApps(map n | n in apps :: ReconcileBroken(apps[n], found[n]))
  }

  // ----- Settings writes and the periodic sweep -----

  /** The three fields the periodic sweep derives. */
  datatype SweepResult = SweepResult(updateAvailable: bool, latestCommit: Option<string>, credentialRejected: bool)

  /** A write that may land while a job runs: a settings change, a sweep write-back, the job's own progress. */
  datatype LedgerWrite<V> =
    | PutLabel(name: AppId, ownerLabel: Option<string>)
    | PutParams(name: AppId, params: map<string, V>)
    | PutAutostart(name: AppId, enabled: bool)
    | PutDefault(app: Option<AppId>)
    | PutSource(name: AppId, ref: string, refKind: RefKind)
    | SweepMerge(updates: map<AppId, SweepResult>)
    | CredentialReplaced(hostOwner: string)
    | JobStep(name: AppId, step: string)

  /** Why a settings write is refused; a refused write leaves the ledger alone. */
  datatype Refusal = AppNotFound | AppBroken | AppJobInProgress | SourceUpdateGitOnly | OfficialTagRefManaged

  /** Turn `autostart` on for one app only, or off everywhere. */
  function WithDefaultApp<V, M>(s: AppsState<V, M>, app: Option<AppId>): AppsState<V, M> {
    s.(apps := map n | n in s.apps :: s.apps[n].(autostart := Some(n) == app))
  }

  function Refused<V, M>(s: AppsState<V, M>, w: LedgerWrite<V>): Option<Refusal> {
    match w
    case PutLabel(n, _) => if n in s.apps then None else Some(AppNotFound)
    case PutParams(n, _) =>
      if n !in s.apps then Some(AppNotFound)
      else if s.currentJobApp == Some(n) then Some(AppJobInProgress)
      else None
    case PutAutostart(n, enabled) =>
      if n !in s.apps then Some(AppNotFound)
      else if s.currentJobApp == Some(n) then Some(AppJobInProgress)
      else if enabled && s.apps[n].brokenReason.Some? then Some(AppBroken)
      else None
    case PutDefault(None) => None
    case PutDefault(Some(n)) =>
      if n !in s.apps then Some(AppNotFound)
      else if s.apps[n].brokenReason.Some? then Some(AppBroken)
      else if s.currentJobApp == Some(n) then Some(AppJobInProgress)
      else None
    case PutSource(n, ref, refKind) =>
      if n !in s.apps then Some(AppNotFound)
      else if s.currentJobApp == Some(n) then Some(AppJobInProgress)
      else if !s.apps[n].source.Git? then Some(SourceUpdateGitOnly)
      else if s.apps[n].source.url.official && s.apps[n].source.refKind == Tag && refKind == Tag
              && ref != s.apps[n].source.ref then Some(OfficialTagRefManaged)
      else None
    case SweepMerge(_) => None
    case CredentialReplaced(_) => None
    case JobStep(_, _) => None
  }

  function Write<V, M>(s: AppsState<V, M>, w: LedgerWrite<V>): (r: AppsState<V, M>)
    ensures r.apps.Keys == s.apps.Keys
  {
    if Refused(s, w).Some? then s else
    match w
    case PutLabel(n, text) => s.(apps := s.apps[n := s.apps[n].(ownerLabel := text)])
    case PutParams(n, ps) => s.(apps := s.apps[n := s.apps[n].(params := s.apps[n].params + ps)])
    case PutAutostart(n, enabled) =>
      if enabled then WithDefaultApp(s, Some(n))
      else s.(apps := s.apps[n := s.apps[n].(autostart := false)])
    case PutDefault(app) => WithDefaultApp(s, app)
    case PutSource(n, ref, refKind) =>
      s.(apps := s.apps[n := s.apps[n].(source := s.apps[n].source.(ref := ref, refKind := refKind))])
    case SweepMerge(updates) =>
      s.(apps := map n | n in s.apps ::
           if n in updates then
             s.apps[n].(updateAvailable := updates[n].updateAvailable,
                        latestCommit := updates[n].latestCommit,
                        credentialRejected := updates[n].credentialRejected)
           else s.apps[n])
    case CredentialReplaced(hostOwner) => s.(apps := ClearCredentialRejected(s.apps, hostOwner))
    case JobStep(n, step) => Advance(s, n, step)
  }

  /** A sequence of such writes, in the order they land. */
  function WriteAll<V, M>(s: AppsState<V, M>, ws: seq<LedgerWrite<V>>): AppsState<V, M> {
    if ws == [] then s else Write(WriteAll(s, ws[..|ws| - 1]), ws[|ws| - 1])
  }

  // ----- What a write leaves alone -----

  /** The fields of a record that a settings write or a sweep never touches. */
  ghost predicate SameJobFields<V, M>(a: AppRecord<V, M>, b: AppRecord<V, M>) {
    && a.id == b.id && a.name == b.name && a.installedAt == b.installedAt && a.lastJob == b.lastJob
    && a.brokenReason == b.brokenReason && a.manifest == b.manifest && a.requiresPython == b.requiresPython
  }

  /** Equal but for the three fields the sweep derives. */
  ghost predicate SameButSwept<V, M>(a: AppRecord<V, M>, b: AppRecord<V, M>) {
    b == a.(updateAvailable := b.updateAvailable, latestCommit := b.latestCommit,
            credentialRejected := b.credentialRejected)
  }

  /** The same job, perhaps at another step. */
  predicate SameJob(a: Option<AppJob>, b: Option<AppJob>) {
    if a.Some? && b.Some? then b.value == a.value.(step := b.value.step) else a == b
  }

  /** Same jobs, same apps, and every app's job-owned fields as they were. */
  ghost predicate SameJobs<V, M>(a: AppsState<V, M>, b: AppsState<V, M>) {
    && a.apps.Keys == b.apps.Keys
    && SameJob(a.currentJob, b.currentJob) && a.currentJobApp == b.currentJobApp
    && a.lastOrphanJob == b.lastOrphanJob && a.lastOrphanJobApp == b.lastOrphanJobApp
    && forall n | n in a.apps :: SameJobFields(a.apps[n], b.apps[n])
  }

  lemma WriteKeepsJobs<V, M>(s: AppsState<V, M>, w: LedgerWrite<V>)
    ensures SameJobs(s, Write(s, w))
  {
    if w.PutDefault? || w.PutAutostart? {
      DefaultKeepsJobs(s, w);
    }
  }

  lemma DefaultKeepsJobs<V, M>(s: AppsState<V, M>, w: LedgerWrite<V>)
    requires w.PutDefault? || w.PutAutostart?
    ensures SameJobs(s, Write(s, w))
  {
  }

  lemma {:induction false} WriteAllKeepsJobs<V, M>(s: AppsState<V, M>, ws: seq<LedgerWrite<V>>)
    ensures SameJobs(s, WriteAll(s, ws))
  {
    if ws != [] {
      WriteAllKeepsJobs(s, ws[..|ws| - 1]);
      WriteKeepsJobs(WriteAll(s, ws[..|ws| - 1]), ws[|ws| - 1]);
    }
  }

  /** The sweep writes three fields of apps still in the ledger, and resurrects none. */
  lemma SweepTouchesThreeFields<V, M>(s: AppsState<V, M>, updates: map<AppId, SweepResult>)
    ensures var s' := Write(s, SweepMerge(updates));
            && s'.apps.Keys == s.apps.Keys
            && s' == s.(apps := s'.apps)
            && (forall n | n in s.apps :: SameButSwept(s.apps[n], s'.apps[n]))
            && (forall n | n in s.apps && n !in updates :: s'.apps[n] == s.apps[n])
            && (forall n | n in s.apps && n in updates ::
                  SweepResult(s'.apps[n].updateAvailable, s'.apps[n].latestCommit, s'.apps[n].credentialRejected)
                  == updates[n])
  {
  }

  // ----- No lost updates -----

  /** The label the last label write to `name` left, or the one there was before. */
  function LastLabel<V>(initial: Option<string>, ws: seq<LedgerWrite<V>>, name: AppId): Option<string> {
    if ws == [] then initial
    else
      var w := ws[|ws| - 1];
      if w.PutLabel? && w.name == name then w.ownerLabel else LastLabel(initial, ws[..|ws| - 1], name)
  }

  /** Whether a write decides the `autostart` flag of `name`, if it lands on a ledger like `s`. */
  predicate DecidesAutostart<V, M>(s: AppsState<V, M>, w: LedgerWrite<V>, name: AppId) {
    Refused(s, w).None? && (w.PutDefault? || (w.PutAutostart? && (w.enabled || w.name == name)))
  }

  /** The `autostart` flag the last deciding write left, or the one there was before. */
  function LastAutostart<V, M>(s: AppsState<V, M>, ws: seq<LedgerWrite<V>>, name: AppId): bool
    requires name in s.apps
  {
    if ws == [] then s.apps[name].autostart
    else
      var w := ws[|ws| - 1];
      if DecidesAutostart(s, w, name) then
        (if w.PutDefault? then w.app == Some(name) else w.enabled && w.name == name)
      else LastAutostart(s, ws[..|ws| - 1], name)
  }

  /** The params of `name`, each with the value its last accepted writer gave it. */
  function LastParams<V, M>(s: AppsState<V, M>, ws: seq<LedgerWrite<V>>, name: AppId): map<string, V>
    requires name in s.apps
  {
    if ws == [] then s.apps[name].params
    else
      var w := ws[|ws| - 1];
      var before := LastParams(s, ws[..|ws| - 1], name);
      if w.PutParams? && w.name == name && Refused(s, w).None? then before + w.params else before
  }

  /** What the last accepted source change asked for, if there was one. */
  function LastSource<V, M>(s: AppsState<V, M>, ws: seq<LedgerWrite<V>>, name: AppId): Option<(string, RefKind)> {
    if ws == [] then None
    else
      var before, w := ws[..|ws| - 1], ws[|ws| - 1];
      if w.PutSource? && w.name == name && Refused(WriteAll(s, before), w).None? then Some((w.ref, w.refKind))
      else LastSource(s, before, name)
  }

  function WithSource(source: AppSource, change: Option<(string, RefKind)>): AppSource {
    if change.Some? && source.Git? then source.(ref := change.value.0, refKind := change.value.1) else source
  }

  lemma WriteKeepsGit<V, M>(s: AppsState<V, M>, w: LedgerWrite<V>)
    ensures forall n | n in s.apps :: Write(s, w).apps[n].source.Git? == s.apps[n].source.Git?
  {
  }

  lemma {:induction false} WriteAllKeepsGit<V, M>(s: AppsState<V, M>, ws: seq<LedgerWrite<V>>)
    ensures WriteAll(s, ws).apps.Keys == s.apps.Keys
    ensures forall n | n in s.apps :: WriteAll(s, ws).apps[n].source.Git? == s.apps[n].source.Git?
  {
    if ws != [] {
      var mid := WriteAll(s, ws[..|ws| - 1]);
      WriteAllKeepsGit(s, ws[..|ws| - 1]);
      WriteKeepsGit(mid, ws[|ws| - 1]);
      assert WriteAll(s, ws) == Write(mid, ws[|ws| - 1]);
    }
  }

  /**
   * Whether a write is refused depends on nothing that settings writes or sweeps change, unless it is
   * a source change: an official app's tag is managed only while its source names a tag.
   */
  lemma {:induction false} RefusalIsStable<V, M>(s: AppsState<V, M>, ws: seq<LedgerWrite<V>>, w: LedgerWrite<V>)
    ensures !w.PutSource? || s.currentJobApp == Some(w.name) ==> Refused(WriteAll(s, ws), w) == Refused(s, w)
  {
    WriteAllKeepsJobs(s, ws);
    WriteAllKeepsGit(s, ws);
  }

  /** One settings write or sweep, as it touches the choices for one app. */
  lemma WriteToApp<V, M>(s: AppsState<V, M>, w: LedgerWrite<V>, name: AppId)
    requires name in s.apps
    ensures var r, r' := s.apps[name], Write(s, w).apps[name];
            var accepted := Refused(s, w).None?;
            && r'.ownerLabel == (if w.PutLabel? && w.name == name then w.ownerLabel else r.ownerLabel)
            && r'.autostart == (if DecidesAutostart(s, w, name)
                                then (if w.PutDefault? then w.app == Some(name) else w.enabled && w.name == name)
                                else r.autostart)
            && r'.params == (if w.PutParams? && w.name == name && accepted then r.params + w.params else r.params)
            && r'.source == (if w.PutSource? && w.name == name && accepted
                             then WithSource(r.source, Some((w.ref, w.refKind))) else r.source)
            && r'.name == r.name
  {
  }

  /**
   * Whatever settings writes and sweeps land on a ledger: an app's label, `autostart` flag, params and
   * source are those of their last accepted writer.
   */
  lemma {:induction false} SettingsLand<V, M>(s: AppsState<V, M>, ws: seq<LedgerWrite<V>>, name: AppId)
    requires name in s.apps
    ensures name in WriteAll(s, ws).apps
    ensures var was, r := s.apps[name], WriteAll(s, ws).apps[name];
            && r.ownerLabel == LastLabel(was.ownerLabel, ws, name)
            && r.autostart == LastAutostart(s, ws, name)
            && r.params == LastParams(s, ws, name)
            && r.source == WithSource(was.source, LastSource(s, ws, name))
            && r.name == was.name
  {
    if ws != [] {
      var before, w := ws[..|ws| - 1], ws[|ws| - 1];
      var mid := WriteAll(s, before);
      SettingsLand(s, before, name);
      RefusalIsStable(s, before, w);
      WriteToApp(mid, w, name);
      assert WriteAll(s, ws) == Write(mid, w);
    }
  }

  /** While a job targets `name`, its params and source cannot be changed. */
  lemma {:induction false} SettingsDuringJob<V, M>(s: AppsState<V, M>, ws: seq<LedgerWrite<V>>, name: AppId)
    requires name in s.apps && s.currentJobApp == Some(name)
    ensures LastParams(s, ws, name) == s.apps[name].params && LastSource(s, ws, name).None?
  {
    if ws != [] {
      SettingsDuringJob(s, ws[..|ws| - 1], name);
      RefusalIsStable(s, ws[..|ws| - 1], ws[|ws| - 1]);
    }
  }

  /** What a job's completion takes from the record it finds, and what it brings. */
  lemma CompletionMerges<V, M>(s: AppsState<V, M>, name: AppId, result: AppRecord<V, M>, clear: bool)
    requires name in s.apps && result.lastJob.Some?
    ensures var end := WriteOwnRecord(s, name, result, clear);
            && end.apps.Keys == s.apps.Keys && end.currentJob.None? && end.currentJobApp.None?
            && JobsOwn(end.apps[name], result)
            && var was, r := s.apps[name], end.apps[name];
               && r.ownerLabel == was.ownerLabel && r.autostart == was.autostart && r.name == was.name
               && r.params == Without(was.params, result.lastJob.value.droppedParams)
  {
  }

  /** The fields that are the job's are those of its result. */
  ghost predicate JobsOwn<V, M>(r: AppRecord<V, M>, result: AppRecord<V, M>) {
    && r.source == result.source && r.manifest == result.manifest && r.requiresPython == result.requiresPython
    && r.lastJob == result.lastJob && r.installedAt == result.installedAt && r.brokenReason == result.brokenReason
  }

  function Without<V>(params: map<string, V>, dropped: seq<string>): map<string, V> {
    map k | k in params && k !in dropped :: params[k]
  }

  lemma CompletionSparesOthers<V, M>(s: AppsState<V, M>, name: AppId, result: AppRecord<V, M>, clear: bool)
    ensures var end := WriteOwnRecord(s, name, result, clear);
            forall n | n in s.apps && n != name ::
              && n in end.apps
              && end.apps[n] == s.apps[n].(credentialRejected := end.apps[n].credentialRejected)
              && (end.apps[n].credentialRejected ==> s.apps[n].credentialRejected)
              && (!clear ==> end.apps[n] == s.apps[n])
  {
  }

  /** The record of a job's app at its completion: the owner's choices and the job's results. */
  ghost predicate Merged<V, M>(s: AppsState<V, M>, ws: seq<LedgerWrite<V>>, name: AppId, result: AppRecord<V, M>,
                               r: AppRecord<V, M>)
    requires name in s.apps && result.lastJob.Some?
  {
    var was := s.apps[name];
    && r.ownerLabel == LastLabel(was.ownerLabel, ws, name)
    && r.autostart == LastAutostart(s, ws, name)
    && r.params == Without(LastParams(s, ws, name), result.lastJob.value.droppedParams)
    && r.name == was.name
    && JobsOwn(r, result)
  }

  /** Every app but `name` is as its last accepted writers left it, but for a credential mark that may be cleared. */
  ghost predicate OthersLanded<V, M>(s: AppsState<V, M>, ws: seq<LedgerWrite<V>>, name: AppId, end: AppsState<V, M>) {
    forall n | n in s.apps && n != name ::
      && n in end.apps && n in WriteAll(s, ws).apps
      && end.apps[n] == WriteAll(s, ws).apps[n].(credentialRejected := end.apps[n].credentialRejected)
      && (end.apps[n].credentialRejected ==> WriteAll(s, ws).apps[n].credentialRejected)
      && end.apps[n].ownerLabel == LastLabel(s.apps[n].ownerLabel, ws, n)
      && end.apps[n].autostart == LastAutostart(s, ws, n)
      && end.apps[n].params == LastParams(s, ws, n)
      && end.apps[n].source == WithSource(s.apps[n].source, LastSource(s, ws, n))
  }

  lemma {:induction false} OthersLand<V, M>(s: AppsState<V, M>, ws: seq<LedgerWrite<V>>, name: AppId,
                                            result: AppRecord<V, M>, clear: bool)
    ensures OthersLanded(s, ws, name, WriteOwnRecord(WriteAll(s, ws), name, result, clear))
  {
    var mid := WriteAll(s, ws);
    CompletionSparesOthers(mid, name, result, clear);
    WriteAllKeepsGit(s, ws);
    forall n | n in s.apps && n != name
      ensures var end := WriteOwnRecord(mid, name, result, clear);
              && end.apps[n].ownerLabel == LastLabel(s.apps[n].ownerLabel, ws, n)
              && end.apps[n].autostart == LastAutostart(s, ws, n)
              && end.apps[n].params == LastParams(s, ws, n)
              && end.apps[n].source == WithSource(s.apps[n].source, LastSource(s, ws, n))
    {
      SettingsLand(s, ws, n);
    }
  }

  /**
   * No lost updates at one completion. Whatever settings writes, sweep write-backs and progress writes
   * come between, the record has the owner's choices of their last accepted writer and the job's
   * results, and every other app's record is its last writers' but for a cleared credential mark.
   */
  lemma {:induction false} NoLostUpdates<V, M>(s: AppsState<V, M>, ws: seq<LedgerWrite<V>>, name: AppId,
                                               result: AppRecord<V, M>)
    requires name in s.apps && result.lastJob.Some?
    ensures var end := WriteOwnRecord(WriteAll(s, ws), name, result, true);
            && end.apps.Keys == s.apps.Keys
            && Merged(s, ws, name, result, end.apps[name])
            && OthersLanded(s, ws, name, end)
  {
    var mid := WriteAll(s, ws);
    assert mid.apps.Keys == s.apps.Keys by { WriteAllKeepsGit(s, ws); }
    SettingsLand(s, ws, name);
    CompletionMerges(mid, name, result, true);
    OthersLand(s, ws, name, result, true);
  }

  // ----- The second write of an update -----

  /** Some accepted write sets a param that the job dropped. */
  predicate PutsDropped<V, M>(s: AppsState<V, M>, ws: seq<LedgerWrite<V>>, name: AppId, dropped: seq<string>) {
    exists i :: 0 <= i < |ws| && PutsDroppedParam(s, ws[i], name, dropped)
  }

  predicate PutsDroppedParam<V, M>(s: AppsState<V, M>, w: LedgerWrite<V>, name: AppId, dropped: seq<string>) {
    w.PutParams? && w.name == name && Refused(s, w).None? && exists k :: k in w.params && k in dropped
  }

  lemma {:induction false} DroppedReturnExactly<V, M>(s: AppsState<V, M>, ws: seq<LedgerWrite<V>>, name: AppId, dropped: seq<string>)
    requires name in s.apps && forall k | k in s.apps[name].params :: k !in dropped
    ensures (exists k :: k in LastParams(s, ws, name) && k in dropped) <==> PutsDropped(s, ws, name, dropped)
  {
    if ws != [] {
      var before, w := ws[..|ws| - 1], ws[|ws| - 1];
      DroppedReturnExactly(s, before, name, dropped);
      if PutsDroppedParam(s, w, name, dropped) {
        var k :| k in w.params && k in dropped;
        assert k in LastParams(s, ws, name) && ws[|ws| - 1] == w;
      } else if k :| k in LastParams(s, ws, name) && k in dropped {
        assert k in LastParams(s, before, name);
        var i :| 0 <= i < |before| && PutsDroppedParam(s, before[i], name, dropped);
        assert ws[i] == before[i];
      }
      if PutsDropped(s, before, name, dropped) {
        var k :| k in LastParams(s, before, name) && k in dropped;
        assert k in LastParams(s, ws, name);
      }
      if i :| 0 <= i < |ws| && PutsDroppedParam(s, ws[i], name, dropped) {
        if i < |before| {
          assert before[i] == ws[i];
        }
      }
    }
  }

  /** The last accepted source change asks for another ref than the source has. */
  predicate AsksForAnotherRef(source: AppSource, change: Option<(string, RefKind)>) {
    change.Some? && source.Git? && change.value != (source.ref, source.refKind)
  }

  /** Nothing of a record differs but its last job and its credential mark. */
  ghost predicate SameSettings<V, M>(a: AppRecord<V, M>, b: AppRecord<V, M>) {
    b == a.(lastJob := b.lastJob, credentialRejected := b.credentialRejected)
  }

  /**
   * An update that cannot remove the old tree writes its record a second time. By then it is no longer
   * the current job, so its app's source and params can be set again. The second write loses an accepted
   * setting exactly when the last source change accepted in between asks for another ref than
   * the update's, or a params write sets a param that the update dropped.
   */
  lemma {:induction false} SecondWriteLosesExactly<V, M>(s: AppsState<V, M>, ws: seq<LedgerWrite<V>>, name: AppId,
                                                         result: AppRecord<V, M>, again: AppRecord<V, M>)
    requires name in s.apps && result.lastJob.Some? && JobsOwn(s.apps[name], result)
    requires forall k | k in s.apps[name].params :: k !in result.lastJob.value.droppedParams
    requires again == result.(lastJob := again.lastJob) && again.lastJob.Some?
    requires again.lastJob.value.droppedParams == result.lastJob.value.droppedParams
    ensures name in WriteAll(s, ws).apps
    ensures SameSettings(WriteAll(s, ws).apps[name], WriteOwnRecord(WriteAll(s, ws), name, again, true).apps[name])
            <==> && !AsksForAnotherRef(result.source, LastSource(s, ws, name))
                 && !PutsDropped(s, ws, name, result.lastJob.value.droppedParams)
  {
    var mid := WriteAll(s, ws);
    var dropped := result.lastJob.value.droppedParams;
    WriteAllKeepsJobs(s, ws);
    SettingsLand(s, ws, name);
    DroppedReturnExactly(s, ws, name, dropped);
    SecondWriteKeeps(mid, name, result, again);
    assert WithSource(result.source, LastSource(s, ws, name)) == result.source
           <==> !AsksForAnotherRef(result.source, LastSource(s, ws, name));
  }

  lemma SecondWriteKeeps<V, M>(mid: AppsState<V, M>, name: AppId, result: AppRecord<V, M>, again: AppRecord<V, M>)
    requires name in mid.apps && result.lastJob.Some? && JobsOwn(mid.apps[name].(source := result.source), result)
    requires again == result.(lastJob := again.lastJob) && again.lastJob.Some?
    requires again.lastJob.value.droppedParams == result.lastJob.value.droppedParams
    ensures SameSettings(mid.apps[name], WriteOwnRecord(mid, name, again, true).apps[name])
            <==> && mid.apps[name].source == result.source
                 && !exists k :: k in mid.apps[name].params && k in result.lastJob.value.droppedParams
  {
    var a, b := mid.apps[name], WriteOwnRecord(mid, name, again, true).apps[name];
    var dropped := result.lastJob.value.droppedParams;
    assert b.params == Without(a.params, dropped);
    assert a.params == Without(a.params, dropped) <==> !exists k :: k in a.params && k in dropped by {
      if k :| k in a.params && k in dropped {
        assert k !in Without(a.params, dropped);
      }
    }
    assert b == MergeJobRecord(Some(a), again).(credentialRejected := b.credentialRejected);
  }

  // ----- Jobs stay findable -----

  /** What `GET /apps/jobs/{id}` finds: the job in flight, an app's last one, or the last orphan. */
  predicate Findable<V, M>(s: AppsState<V, M>, id: JobId) {
    || (s.currentJob.Some? && s.currentJob.value.id == id)
    || (exists n :: n in s.apps && s.apps[n].lastJob.Some? && s.apps[n].lastJob.value.id == id)
    || (s.lastOrphanJob.Some? && s.lastOrphanJob.value.id == id)
  }

  lemma SameJobsSameFindable<V, M>(a: AppsState<V, M>, b: AppsState<V, M>, id: JobId)
    requires SameJobs(a, b)
    ensures Findable(a, id) == Findable(b, id)
  {
  }

  // ----- Finalize -----

  /** Startup marks an app broken exactly when its manifest or its environment is missing. */
  lemma FinalizeMarksBroken<V, M>(s: AppsState<V, M>, found: map<AppId, DiskCheck>, now: Time)
    requires s.apps.Keys <= found.Keys
    ensures var f := FinalizeAppsState(s, found, now);
            && f.apps.Keys == s.apps.Keys
            && f.currentJob.None? && f.currentJobApp.None?
            && forall n | n in s.apps ::
                 f.apps[n].brokenReason.Some? <==> !(found[n].manifestExists && found[n].venvExists)
  {
  }

  lemma ReconcileIdempotent<V, M>(r: AppRecord<V, M>, found: DiskCheck)
    ensures ReconcileBroken(ReconcileBroken(r, found), found) == ReconcileBroken(r, found)
  {
  }

  /** Finalizing twice against the same disk is finalizing once. */
  lemma {:induction false} FinalizeIdempotent<V, M>(s: AppsState<V, M>, found: map<AppId, DiskCheck>, now: Time, later: Time)
    requires s.apps.Keys <= found.Keys
    ensures var once := FinalizeAppsState(s, found, now);
            && once.apps.Keys <= found.Keys
            && FinalizeAppsState(once, found, later) == once
  {
    var once := FinalizeAppsState(s, found, now);
    forall n | n in once.apps ensures ReconcileBroken(once.apps[n], found[n]) == once.apps[n] {
      FinalizeReconciles(s, found, now, n);
    }
    assert (map n | n in once.apps :: ReconcileBroken(once.apps[n], found[n])) == once.apps;
  }

  lemma FinalizeReconciles<V, M>(s: AppsState<V, M>, found: map<AppId, DiskCheck>, now: Time, n: AppId)
    requires s.apps.Keys <= found.Keys && n in FinalizeAppsState(s, found, now).apps
    ensures n in found
    ensures ReconcileBroken(FinalizeAppsState(s, found, now).apps[n], found[n]) == FinalizeAppsState(s, found, now).apps[n]
  {
    var r := FinalizeAppsState(s, found, now).apps[n];
    ReconcileIdempotent(s.apps[n].(lastJob := r.lastJob), found[n]);
  }
}

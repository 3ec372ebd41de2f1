/**
 * Concrete runs of the job protocol, one for each exception that the theorems about all runs name:
 * a start that goes blind, build code left beside a running app, an accepted setting that an update
 * loses, and a dead process's job that survives a start. What the last one costs is proved for
 * whatever happens after it.
 */
module JobRuns {
  import opened Prelude
  import opened Ledger
  import opened JobProtocol
  import opened JobSafety
  import opened JobUpdates
  import Values

  lemma Then(events: seq<Event>, e: Event) returns (longer: seq<Event>)
    ensures longer == events + [e]
    ensures Run(events).Some? ==> Run(longer) == Next(Run(events).value, e)
  {
    longer := events + [e];
    assert longer[..|longer| - 1] == events;
  }

  /** A quiet start leads to a serving Portal. */
  lemma QuietStart() returns (events: seq<Event>, w: World)
    ensures Run(events) == Some(w) && w == Factory.(portal := Serving, history := Factory.history.(tidy := true))
  {
    events := Then([], Launch);
    events := Then(events, BootStep(Go));
    assert Run(events) == Some(AtBoot(Factory, BootStop({}, {})));
    events := Then(events, BootStep(Go));
    events := Then(events, BootStep(Go));
    assert Run(events) == Some(AtBoot(Factory, BootClean(true)));
    events := Then(events, BootStep(Go));
    events := Then(events, BootStep(Go));
    assert Run(events) == Some(AtBoot(Factory, BootFinalize));
    events := Then(events, BootStep(Go));
    assert FinalizeAppsState(Factory.ledger, FoundOn(Factory.disk, {}), 0.0).apps == map[];
    w := Run(events).value;
  }

  /** Thread `t` makes one move. */
  lemma Step(events: seq<Event>, w: World, t: Tid, act: Act, e: Effect, next: Pc)
    returns (longer: seq<Event>, w': World)
    requires Run(events) == Some(w) && w.portal.Serving? && t in w.threads
    requires ThreadMove(w, w.threads[t], act) == Does(e, next)
    ensures w' == After(w, t, e, next) && Run(longer) == Some(w')
  {
    longer := Then(events, Thread(t, act));
    w' := After(w, t, e, next);
  }

  /** Thread `t` stands at `pc`. */
  predicate At(w: World, t: Tid, pc: Pc) {
    w.portal.Serving? && t in w.threads && w.threads[t] == pc
  }

  // ----- An install -----

  /** Nothing is locked or runs. */
  predicate Idle(w: World) {
    w.appsLock.Free? && w.runLock.None? && w.syncs == {} && w.units == {} && !w.history.exposed
  }

  /** Thread 0 asks for a job, and thread 1 for something else. */
  lemma TwoRequests(j: Job, other: Request) returns (events: seq<Event>, w: World)
    requires other.RunJob? ==> other.job.id != j.id
    ensures Run(events) == Some(w) && Idle(w) && At(w, 0, Asked(RunJob(j))) && At(w, 1, Asked(other))
    ensures w.ledger == JustApps(map[]) && w.disk == Disk(map[], map[], map[])
  {
    events, w := QuietStart();
    events := Then(events, Arrive(0, RunJob(j)));
    w := w.(threads := w.threads[0 := Asked(RunJob(j))], usedIds := w.usedIds + {j.id});
    assert Run(events) == Some(w);
    events := Then(events, Arrive(1, other));
    w := Run(events).value;
  }

  /** No thread but `t` moved. */
  predicate OnlyMoved(was: World, w: World, t: Tid) {
    forall u | u in was.threads && u != t :: u in w.threads && w.threads[u] == was.threads[u]
  }

  lemma StagesInstall(before: seq<Event>, was: World, t: Tid, j: Job, tree: Tree) returns (events: seq<Event>, w: World)
    requires Run(before) == Some(was) && Idle(was) && At(was, t, Asked(RunJob(j)))
    requires j.kind == Install && tree.Whole? && tree.manifest
    ensures Run(events) == Some(w) && Idle(w) && At(w, t, Prepared(j)) && Get(w.disk.staging, j.id) == Some(tree)
    ensures w.disk.apps == was.disk.apps && w.ledger == was.ledger && OnlyMoved(was, w, t)
  {
    events, w := Step(before, was, t, Go, Stage(j.id, Partial), Preparing(j));
    events, w := Step(events, w, t, Build(tree), Stage(j.id, tree), Prepared(j));
  }

  lemma RecordsInstall(before: seq<Event>, was: World, t: Tid, j: Job) returns (events: seq<Event>, w: World)
    requires Run(before) == Some(was) && Idle(was) && At(was, t, Prepared(j))
    requires j.kind == Install && j.app !in was.ledger.apps
    ensures Run(events) == Some(w) && At(w, t, JobBegun(j)) && w.disk == was.disk && OnlyMoved(was, w, t)
    ensures w.runLock.None? && w.syncs == {} && w.units == {} && !w.history.exposed
    ensures w.ledger == Begin(was.ledger, j.app, NewJob(j))
  {
    events, w := Step(before, was, t, Go, LockApps, JobLocked(j));
    events, w := Step(events, w, t, Go, Nothing, JobChecked(j));
    events, w := Step(events, w, t, Go, Commit(OpBegin(j)), JobBegun(j));
  }

  /** A recorded install starts its sync unit. */
  lemma SyncsInstall(before: seq<Event>, was: World, t: Tid, j: Job) returns (events: seq<Event>, w: World)
    requires Run(before) == Some(was) && At(was, t, JobBegun(j)) && j.kind == Install && j.id in was.disk.staging
    requires was.syncs == {}
    ensures Run(events) == Some(w) && At(w, t, JobSyncing(j)) && w.syncs == {j.id} && w.disk == was.disk
    ensures w.runLock == was.runLock && w.units == was.units && w.history == was.history && w.ledger == was.ledger
    ensures OnlyMoved(was, w, t)
  {
    events, w := Step(before, was, t, Go, Nothing, JobRunning(j));
    events, w := Step(events, w, t, Go, Nothing, JobReady(j));
    events, w := Step(events, w, t, Go, StartSync(j.id), JobSyncing(j));
  }

  /** The sync unit ends. */
  lemma EndsSync(before: seq<Event>, was: World, t: Tid, j: Job, tree: Tree) returns (events: seq<Event>, w: World)
    requires Run(before) == Some(was) && At(was, t, JobSyncing(j)) && was.syncs == {j.id} && j.id in was.disk.staging
    requires tree.Whole?
    ensures Run(events) == Some(w) && At(w, t, JobSynced(j)) && w.syncs == {} && OnlyMoved(was, w, t)
    ensures w.disk.apps == was.disk.apps && Get(w.disk.staging, j.id) == Some(tree) && w.ledger == was.ledger
    ensures w.runLock == was.runLock && w.units == was.units && w.history.exposed == was.history.exposed
  {
    events := Then(before, SyncExits(j.id));
    w := was.(syncs := was.syncs - {j.id});
    events, w := Step(events, w, t, Build(tree), Synced(j.id, tree), JobSynced(j));
  }

  /** An install puts its tree in place. */
  lemma SwapsInstall(before: seq<Event>, was: World, t: Tid, j: Job, tree: Tree) returns (events: seq<Event>, w: World)
    requires Run(before) == Some(was) && At(was, t, JobSynced(j)) && Get(was.disk.staging, j.id) == Some(tree)
    requires j.kind == Install && j.app !in was.disk.apps
    ensures Run(events) == Some(w) && At(w, t, JobSwapped(j)) && OnlyMoved(was, w, t)
    ensures w.disk.apps == was.disk.apps[j.app := tree] && w.ledger == was.ledger
    ensures w.syncs == was.syncs && w.runLock == was.runLock && w.units == was.units && w.history == was.history
  {
    events, w := Step(before, was, t, Go, SwapIn(j), JobSwapped(j));
  }

  /** The job registers its record. */
  lemma Registers(before: seq<Event>, was: World, t: Tid, j: Job, record: Record) returns (events: seq<Event>, w: World)
    requires Run(before) == Some(was) && At(was, t, JobSwapped(j)) && IsDoneRecord(record, j)
    ensures Run(events) == Some(w) && At(w, t, JobRegistered(j, record)) && OnlyMoved(was, w, t)
    ensures w == was.(ledger := w.ledger, threads := w.threads)
    ensures w.ledger == WriteOwnRecord(was.ledger, j.app, record, j.kind == Update)
  {
    events, w := Step(before, was, t, Register(record), Commit(OpRegister(j, record)), JobRegistered(j, record));
  }

  /** The job leaves its staging directory behind. */
  lemma Closes(before: seq<Event>, was: World, t: Tid, j: Job, record: Record) returns (events: seq<Event>, w: World)
    requires Run(before) == Some(was) && At(was, t, JobRegistered(j, record))
    ensures Run(events) == Some(w) && At(w, t, JobUnlocking) && OnlyMoved(was, w, t)
    ensures w == was.(threads := w.threads)
  {
    events, w := Step(before, was, t, Go, Nothing, JobClosing(j));
    events, w := Step(events, w, t, Raise, Nothing, JobUnlocking);
  }

  lemma Unlocks(before: seq<Event>, was: World, t: Tid) returns (events: seq<Event>, w: World)
    requires Run(before) == Some(was) && At(was, t, JobUnlocking)
    ensures Run(events) == Some(w) && w.appsLock.Free? && OnlyMoved(was, w, t)
    ensures w == was.(appsLock := w.appsLock, threads := w.threads)
  {
    events, w := Step(before, was, t, Go, UnlockApps, Finished);
  }

  /** The record of an app that follows the branch `ref` of a repository. */
  function Following(j: Job, ref: string): (r: Record)
    ensures IsDoneRecord(r, j) && r.source.Git? && r.source.ref == ref && !r.source.url.official
  {
    AppRecord(j.app, "Demo", Git(Url("https://example.org/demo", None, false), ref, Branch, None, None, None), None,
              map[], false, Some(DoneJob(j)), None, false, false, None, Values.Null, None, None)
  }

  /** An app is installed, and thread 1 has not begun with its request. */
  lemma InstalledApp(j: Job, tree: Tree, record: Record, other: Request) returns (events: seq<Event>, w: World)
    requires j.kind == Install && tree.Whole? && tree.manifest && IsDoneRecord(record, j)
    requires other.RunJob? ==> other.job.id != j.id
    ensures Run(events) == Some(w) && Idle(w) && At(w, 1, Asked(other))
    ensures w.ledger == JustApps(map[j.app := record]) && w.disk.apps == map[j.app := tree]
  {
    events, w := RegisteredInstall(j, tree, record, other);
    events, w := Closes(events, w, 0, j, record);
    events, w := Unlocks(events, w, 0);
  }

  lemma RegisteredInstall(j: Job, tree: Tree, record: Record, other: Request) returns (events: seq<Event>, w: World)
    requires j.kind == Install && tree.Whole? && tree.manifest && IsDoneRecord(record, j)
    requires other.RunJob? ==> other.job.id != j.id
    ensures Run(events) == Some(w) && At(w, 0, JobRegistered(j, record)) && At(w, 1, Asked(other)) && w.syncs == {}
    ensures w.runLock.None? && w.units == {} && !w.history.exposed && w.disk.apps == map[j.app := tree]
    ensures w.ledger == JustApps(map[j.app := record])
  {
    events, w := SwappedInstall(j, tree, other);
    FirstRecord(j, record);
    events, w := Registers(events, w, 0, j, record);
  }

  lemma FirstRecord(j: Job, record: Record)
    ensures WriteOwnRecord(Begin(JustApps(map[]), j.app, NewJob(j)), j.app, record, false) == JustApps(map[j.app := record])
  {
  }

  /** A first install has put its tree in place. */
  lemma SwappedInstall(j: Job, tree: Tree, other: Request) returns (events: seq<Event>, w: World)
    requires j.kind == Install && tree.Whole? && tree.manifest
    requires other.RunJob? ==> other.job.id != j.id
    ensures Run(events) == Some(w) && At(w, 0, JobSwapped(j)) && At(w, 1, Asked(other)) && w.syncs == {}
    ensures w.runLock.None? && w.units == {} && !w.history.exposed && w.disk.apps == map[j.app := tree]
    ensures w.ledger == Begin(JustApps(map[]), j.app, NewJob(j))
  {
    events, w := SyncingInstall(j, tree, other);
    events, w := EndsSync(events, w, 0, j, tree);
    events, w := SwapsInstall(events, w, 0, j, tree);
  }

  /** A first install is syncing. */
  lemma SyncingInstall(j: Job, tree: Tree, other: Request) returns (events: seq<Event>, w: World)
    requires j.kind == Install && tree.Whole? && tree.manifest
    requires other.RunJob? ==> other.job.id != j.id
    ensures Run(events) == Some(w) && At(w, 0, JobSyncing(j)) && At(w, 1, Asked(other)) && w.syncs == {j.id}
    ensures w.runLock.None? && w.units == {} && !w.history.exposed && w.disk.apps == map[] && j.id in w.disk.staging
    ensures w.ledger == Begin(JustApps(map[]), j.app, NewJob(j))
  {
    events, w := RecordedInstall(j, tree, other);
    events, w := SyncsInstall(events, w, 0, j);
  }

  /** A first install is recorded. */
  lemma RecordedInstall(j: Job, tree: Tree, other: Request) returns (events: seq<Event>, w: World)
    requires j.kind == Install && tree.Whole? && tree.manifest
    requires other.RunJob? ==> other.job.id != j.id
    ensures Run(events) == Some(w) && At(w, 0, JobBegun(j)) && At(w, 1, Asked(other)) && w.syncs == {}
    ensures w.runLock.None? && w.units == {} && !w.history.exposed && w.disk.apps == map[] && j.id in w.disk.staging
    ensures w.ledger == Begin(JustApps(map[]), j.app, NewJob(j))
  {
    events, w := TwoRequests(j, other);
    events, w := StagesInstall(events, w, 0, j, tree);
    events, w := RecordsInstall(events, w, 0, j);
  }

  // ----- A start that goes blind, and what it can lead to -----

  /** A killed Portal starts, finds a live sync unit, and can take no lock. */
  lemma GoesBlind(before: seq<Event>, was: World) returns (events: seq<Event>, w: World)
    requires Run(before) == Some(was) && was.portal.Serving? && was.syncs != {}
    ensures Run(events) == Some(w) && w.portal == Booting(BootClean(false)) && w.appsLock.Free? && w.runLock.None?
    ensures w.threads == map[] && w.syncs == was.syncs && w.units == was.units
    ensures w.ledger == was.ledger && w.disk == was.disk
  {
    events := Then(before, Kill);
    events := Then(events, Launch);
    events := Then(events, BootStep(Raise));
    assert Run(events).Some? && Run(events).value.portal == Booting(BootHold);
    events := Then(events, BootStep(Raise));
    w := Run(events).value;
  }

  /** A run that goes blind: the unit of a killed install survives, and the next start cannot take the lock. */
  lemma {:induction false} BlindRunExists() returns (events: seq<Event>)
    ensures Run(events).Some?
    ensures var w := Run(events).value; w.portal.Serving? && w.syncs != {} && w.appsLock.Free?
  {
    var w;
    events, w := SyncingInstall(Job("j1", Install, "demo"), Whole(1, true, false), Probe);
    events, w := GoesBlind(events, w);
    events, w := ServesBlind(events, w);
  }

  /** The blind start goes on to serve. */
  lemma ServesBlind(before: seq<Event>, was: World) returns (events: seq<Event>, w: World)
    requires Run(before) == Some(was) && was.portal == Booting(BootClean(false)) && was.disk.apps.Keys <= was.ledger.apps.Keys
    ensures Run(events) == Some(w) && w.portal.Serving? && w.appsLock == was.appsLock && w.runLock == was.runLock
    ensures w.threads == was.threads && w.syncs == was.syncs && w.units == was.units
    ensures w.ledger.apps.Keys == was.ledger.apps.Keys && w.ledger.currentJobApp.None?
  {
    events := Then(before, BootStep(Go));
    assert Run(events) == Some(AtBoot(was, BootSweep));
    events := Then(events, BootStep(Go));
    assert Run(events) == Some(AtBoot(was, BootFinalize));
    events := Then(events, BootStep(Go));
    w := Run(events).value;
  }

  /** An app starts when nothing is locked and no other app is installed. */
  lemma Starts(before: seq<Event>, was: World, a: AppId) returns (events: seq<Event>, w: World)
    requires Run(before) == Some(was) && was.portal.Serving? && was.threads == map[] && was.appsLock.Free? && was.runLock.None?
    requires was.ledger.apps.Keys == {a} && was.ledger.currentJobApp.None?
    ensures Run(events) == Some(w) && w.units == was.units + {a} && w.syncs == was.syncs
  {
    events, w := StartScans(before, was, a);
    events, w := Step(events, w, 0, Go, Nothing, Ready(a, false));
    events, w := Step(events, w, 0, Go, StartUnit(a), StartUnlocking);
  }

  lemma StartScans(before: seq<Event>, was: World, a: AppId) returns (events: seq<Event>, w: World)
    requires Run(before) == Some(was) && was.portal.Serving? && was.threads == map[] && was.appsLock.Free? && was.runLock.None?
    requires was.ledger.apps.Keys == {a} && was.ledger.currentJobApp.None?
    ensures Run(events) == Some(w) && At(w, 0, Scanning(a, {}, false)) && w.units == was.units && w.syncs == was.syncs
  {
    events := Then(before, Arrive(0, StartApp(a)));
    w := was.(threads := was.threads[0 := Asked(StartApp(a))], usedIds := was.usedIds + {});
    events, w := Step(events, w, 0, Go, LockApps, StartLocked(a));
    events, w := Step(events, w, 0, Go, LockRun, StartBothLocked(a));
    assert w.ledger.apps.Keys - {a} == {};
    events, w := Step(events, w, 0, Go, Nothing, Scanning(a, {}, false));
  }

  /** A blind start can leave build code beside a running app. */
  lemma {:induction false} ContainmentCanBreak() returns (events: seq<Event>)
    ensures Run(events).Some?
    ensures var w := Run(events).value; w.syncs != {} && w.units != {} && w.history.exposed
  {
    var w;
    events, w := SecondInstallSyncs(Job("j1", Install, "demo"), Job("j2", Install, "clock"), Whole(1, true, true));
    events, w := GoesBlind(events, w);
    events, w := ServesBlind(events, w);
    events, w := Starts(events, w, "demo");
    if !w.history.exposed {
      BuildCodeIsContained(events);
    }
  }

  /** An app is installed, and a second install is syncing. */
  lemma SecondInstallSyncs(first: Job, second: Job, tree: Tree) returns (events: seq<Event>, w: World)
    requires first.kind == Install && second.kind == Install && first.id != second.id && first.app != second.app
    requires tree.Whole? && tree.manifest
    ensures Run(events) == Some(w) && w.portal.Serving? && w.syncs == {second.id} && w.units == {}
    ensures w.ledger.apps.Keys == {first.app} && w.disk.apps.Keys == {first.app}
  {
    events, w := SecondInstallStaged(first, second, tree, Following(first, "main"));
    events, w := RecordsInstall(events, w, 1, second);
    events, w := SyncsInstall(events, w, 1, second);
  }

  lemma SecondInstallStaged(first: Job, second: Job, tree: Tree, record: Record) returns (events: seq<Event>, w: World)
    requires first.kind == Install && second.kind == Install && first.id != second.id && first.app != second.app
    requires tree.Whole? && tree.manifest && IsDoneRecord(record, first)
    ensures Run(events) == Some(w) && Idle(w) && At(w, 1, Prepared(second)) && second.id in w.disk.staging
    ensures w.ledger.apps.Keys == {first.app} && w.disk.apps.Keys == {first.app}
  {
    events, w := InstalledApp(first, tree, record, RunJob(second));
    events, w := StagesInstall(events, w, 1, second, tree);
  }

  // ----- An update that loses an accepted setting -----

  lemma BeginsUpdate(before: seq<Event>, was: World, t: Tid, j: Job) returns (events: seq<Event>, w: World)
    requires Run(before) == Some(was) && Idle(was) && At(was, t, Asked(RunJob(j)))
    requires j.kind == Update && j.app in was.ledger.apps
    ensures Run(events) == Some(w) && At(w, t, JobBegun(j)) && w.disk == was.disk
    ensures w.runLock.None? && w.syncs == {} && w.units == {}
    ensures w.ledger == Begin(was.ledger, j.app, NewJob(j))
  {
    events, w := Step(before, was, t, Go, LockApps, JobLocked(j));
    events, w := Step(events, w, t, Go, Nothing, JobChecked(j));
    events, w := Step(events, w, t, Go, Commit(OpBegin(j)), JobBegun(j));
  }

  lemma FetchesUpdate(before: seq<Event>, was: World, t: Tid, j: Job, tree: Tree) returns (events: seq<Event>, w: World)
    requires Run(before) == Some(was) && At(was, t, JobBegun(j)) && j.kind == Update && tree.Whole? && tree.manifest
    ensures Run(events) == Some(w) && At(w, t, JobReady(j)) && j.id in w.disk.staging
    ensures w.ledger == was.ledger && w.runLock == was.runLock && w.syncs == was.syncs && w.units == was.units
  {
    events, w := Step(before, was, t, Go, Nothing, JobRunning(j));
    events, w := Step(events, w, t, Go, Stage(j.id, Partial), JobFetching(j));
    events, w := Step(events, w, t, Build(tree), Stage(j.id, tree), JobReady(j));
  }

  lemma SyncsUpdate(before: seq<Event>, was: World, t: Tid, j: Job, tree: Tree) returns (events: seq<Event>, w: World)
    requires Run(before) == Some(was) && At(was, t, JobReady(j)) && j.id in was.disk.staging && was.syncs == {} && tree.Whole?
    ensures Run(events) == Some(w) && At(w, t, JobSynced(j)) && j.id in w.disk.staging
    ensures w.ledger == was.ledger && w.runLock == was.runLock && w.units == was.units
  {
    events, w := Step(before, was, t, Go, StartSync(j.id), JobSyncing(j));
    events, w := EndsSync(events, w, t, j, tree);
  }

  lemma TrashesOldTree(before: seq<Event>, was: World, t: Tid, j: Job) returns (events: seq<Event>, w: World)
    requires Run(before) == Some(was) && At(was, t, JobSynced(j)) && j.kind == Update && j.id in was.disk.staging
    requires was.runLock.None? && was.units == {}
    ensures Run(events) == Some(w) && At(w, t, JobTrashed(j)) && j.id in w.disk.staging && w.ledger == was.ledger
  {
    events, w := Step(before, was, t, Go, LockRun, JobSwapLocked(j));
    if j.app in w.disk.apps {
      events, w := Step(events, w, t, Go, TrashApp(j.app, j.id), JobTrashed(j));
    } else {
      events, w := Step(events, w, t, Go, Nothing, JobTrashed(j));
    }
  }

  lemma SwapsUpdate(before: seq<Event>, was: World, t: Tid, j: Job) returns (events: seq<Event>, w: World)
    requires Run(before) == Some(was) && At(was, t, JobTrashed(j)) && j.id in was.disk.staging
    ensures Run(events) == Some(w) && At(w, t, JobSwapped(j)) && w.ledger == was.ledger
  {
    events, w := Step(before, was, t, Go, SwapIn(j), JobSwapUnlock(j));
    events, w := Step(events, w, t, Go, UnlockRun, JobSwapped(j));
  }

  /** An update of the only app has put its new tree in place. */
  lemma SwappedUpdate(install: Job, update: Job, tree: Tree, record: Record) returns (events: seq<Event>, w: World)
    requires install.kind == Install && update.kind == Update && update.id != install.id && update.app == install.app
    requires tree.Whole? && tree.manifest && IsDoneRecord(record, install)
    ensures Run(events) == Some(w) && At(w, 1, JobSwapped(update)) && w.ledger.apps == map[install.app := record]
  {
    events, w := InstalledApp(install, tree, record, RunJob(update));
    events, w := BeginsUpdate(events, w, 1, update);
    events, w := FetchesUpdate(events, w, 1, update, tree);
    events, w := SyncsUpdate(events, w, 1, update, tree);
    events, w := TrashesOldTree(events, w, 1, update);
    events, w := SwapsUpdate(events, w, 1, update);
  }

  /** The update has registered its record. */
  lemma RegisteredUpdate(install: Job, update: Job, tree: Tree, ref: string) returns (events: seq<Event>, w: World)
    requires install.kind == Install && update.kind == Update && update.id != install.id && update.app == install.app
    requires tree.Whole? && tree.manifest
    ensures Run(events) == Some(w) && At(w, 1, JobRegistered(update, Following(update, ref)))
    ensures w.ledger.currentJobApp.None? && update.app in w.ledger.apps
    ensures w.ledger.apps[update.app].source == Following(update, ref).source
  {
    events, w := SwappedUpdate(install, update, tree, Following(install, ref));
    events, w := Registers(events, w, 1, update, Following(update, ref));
  }

  /**
   * An accepted setting is lost. While an update removes the old tree, its app is set to follow another
   * branch, and the change is accepted; the old tree cannot be removed, and the update's second write
   * puts the app back on the first branch.
   */
  lemma {:induction false} AcceptedSourceIsLost() returns (events: seq<Event>, change: SettingsWrite)
    ensures Run(events).Some? && LosesChange(Run(events).value, 1, change)
  {
    var w;
    events, w := RegisteredUpdate(Job("j1", Install, "demo"), Job("j2", Update, "demo"), Whole(1, true, true), "main");
    change := PutSource("demo", "next", Branch);
    assert "next"[0] != "main"[0];
    ChangeIsLost(w, Job("j2", Update, "demo"), "main", "next");
  }

  /** A source change is accepted, and gone after the next step of thread `t`, the last write of its job. */
  ghost predicate LosesChange(w: World, t: Tid, change: SettingsWrite) {
    && change.PutSource? && Refused(w.ledger, change).None?
    && var accepted := Next(w, Wrote(change));
       && accepted.Some? && Follows(accepted.value.ledger, change.name, change.ref)
       && var end := Next(accepted.value, Thread(t, Raise));
          && end.Some? && t in end.value.threads && end.value.threads[t].JobClosing?
          && change.name in end.value.ledger.apps && !Follows(end.value.ledger, change.name, change.ref)
  }

  predicate Follows(s: State, name: AppId, ref: string) {
    name in s.apps && s.apps[name].source.Git? && s.apps[name].source.ref == ref
  }

  lemma ChangeIsLost(w: World, j: Job, ref: string, next: string)
    requires At(w, 1, JobRegistered(j, Following(j, ref))) && j.kind == Update && ref != next
    requires w.ledger.currentJobApp.None? && j.app in w.ledger.apps
    requires w.ledger.apps[j.app].source == Following(j, ref).source
    ensures LosesChange(w, 1, PutSource(j.app, next, Branch))
  {
    var change: SettingsWrite := PutSource(j.app, next, Branch);
    ChangeLands(w.ledger, change, Following(j, ref).source);
    var accepted := w.(ledger := Write(w.ledger, change));
    assert Next(w, Wrote(change)) == Some(accepted);
    SecondWriteOverwrites(accepted, j, Following(j, ref));
  }

  lemma ChangeLands(s: State, change: SettingsWrite, source: AppSource)
    requires change.PutSource? && s.currentJobApp.None? && change.name in s.apps && s.apps[change.name].source == source
    requires source.Git? && !source.url.official
    ensures Refused(s, change).None? && Follows(Write(s, change), change.name, change.ref)
  {
  }

  lemma SecondWriteOverwrites(w: World, j: Job, record: Record)
    requires At(w, 1, JobRegistered(j, record)) && j.kind == Update && IsDoneRecord(record, j)
    ensures var n := Next(w, Thread(1, Raise));
            && n.Some? && At(n.value, 1, JobClosing(j)) && j.app in n.value.ledger.apps
            && n.value.ledger.apps[j.app].source == record.source
  {
    LastStepOfUpdate(w, 1, j, record, Raise);
    LastMoveOfUpdate(w, j, record, Raise);
    OwnSource(w.ledger, j.app, WithLeftover(record));
  }

  lemma OwnSource(s: State, name: AppId, record: Record)
    ensures name in WriteOwnRecord(s, name, record, true).apps
    ensures WriteOwnRecord(s, name, record, true).apps[name].source == record.source
  {
  }

  // ----- A dead process's job that survives a start -----

  /**
   * A killed install stays the current job: the next start stops nothing and finds every lock free, but
   * the cleanup fails, and startup goes on to serve without resolving the job.
   */
  lemma {:induction false} StaleJobExists() returns (events: seq<Event>)
    ensures Run(events).Some? && LeftStale(Run(events).value)
  {
    var w;
    events, w := RecordedInstall(Job("j1", Install, "demo"), Whole(1, true, true), Probe);
    events, w := ServesStale(events, w);
  }

  /** A serving Portal in which no thread runs, whose ledger still names a job of a dead process. */
  predicate LeftStale(w: World) {
    w.portal.Serving? && w.threads == map[] && w.ledger.currentJob.Some? && w.ledger.currentJobApp.Some?
  }

  lemma ServesStale(before: seq<Event>, was: World) returns (events: seq<Event>, w: World)
    requires Run(before) == Some(was) && was.portal.Serving? && was.syncs == {}
    requires was.ledger.currentJob.Some? && was.ledger.currentJobApp.Some?
    ensures Run(events) == Some(w) && LeftStale(w)
  {
    events := Then(before, Kill);
    events := Then(events, Launch);
    events := Then(events, BootStep(Go));
    assert Run(events).Some? && Run(events).value.portal == Booting(BootStop({}, {}));
    events := Then(events, BootStep(Go));
    events := Then(events, BootStep(Go));
    assert Run(events).Some? && Run(events).value.portal == Booting(BootClean(true));
    events := Then(events, BootStep(Raise));
    w := Run(events).value;
  }

  /** A thread that cannot start an app, nor end or replace a job, while a job is current. */
  predicate Powerless(pc: Pc) {
    pc.Finished? || IsService(pc) || (IsStart(pc) && !pc.Scanning? && !pc.Ready?)
  }

  /** A job is current, and no thread can do anything about it. */
  predicate Stale(w: World) {
    w.portal.Serving? && w.ledger.currentJobApp.Some? && forall t | t in w.threads :: Powerless(w.threads[t])
  }

  /** A new job, a reset, or the end of the process. */
  predicate EndsStaleness(e: Event) {
    e.Kill? || (e.Arrive? && (e.request.RunJob? || e.request.Reset?))
  }

  lemma PowerlessMoves(w: World, pc: Pc, act: Act)
    requires Stale(w) && Powerless(pc)
    ensures var m := ThreadMove(w, pc, act);
            m.Does? ==> Powerless(m.next) && !m.effect.Commit? && !m.effect.StartUnit?
  {
  }

  lemma StaleStep(w: World, e: Event)
    requires Stale(w) && !EndsStaleness(e) && Next(w, e).Some?
    ensures var n := Next(w, e).value;
            && Stale(n) && n.units <= w.units && n.ledger.currentJobApp == w.ledger.currentJobApp
            && n.ledger == if e.Wrote? then Write(w.ledger, e.write) else w.ledger
  {
    if e.Thread? {
      PowerlessMoves(w, w.threads[e.t], e.act);
    } else if e.Wrote? {
      WriteKeepsJobs(w.ledger, e.write);
    }
  }

  /**
   * What a stale job costs. Until the next job, reset or start, whatever is asked: it stays the current
   * job, no app starts, the ledger changes only by settings writes, and the params and the source of
   * the job's app stay as they are.
   */
  lemma {:induction false} StaleJobBlocks(events: seq<Event>, p: nat)
    requires p <= |events| && Run(events).Some?
    requires Run(events[..p]).Some? && LeftStale(Run(events[..p]).value)
    requires forall k | p <= k < |events| :: !EndsStaleness(events[k])
    ensures var was, w := Run(events[..p]).value, Run(events).value;
            var a := was.ledger.currentJobApp.value;
            && w.ledger.currentJobApp == Some(a) && w.units <= was.units
            && w.ledger == WriteAll(was.ledger, WritesIn(events[p..]))
            && (a in was.ledger.apps ==>
                  && a in w.ledger.apps
                  && w.ledger.apps[a].params == was.ledger.apps[a].params
                  && w.ledger.apps[a].source == was.ledger.apps[a].source)
  {
    StaysStale(events, p);
    var s := Run(events[..p]).value.ledger;
    var a := s.currentJobApp.value;
    if a in s.apps {
      SettingsLand(s, WritesIn(events[p..]), a);
      SettingsDuringJob(s, WritesIn(events[p..]), a);
    }
  }

  lemma {:induction false} StaysStale(events: seq<Event>, p: nat)
    requires p <= |events| && Run(events).Some?
    requires Run(events[..p]).Some? && LeftStale(Run(events[..p]).value)
    requires forall k | p <= k < |events| :: !EndsStaleness(events[k])
    ensures var was, w := Run(events[..p]).value, Run(events).value;
            && Stale(w) && w.ledger.currentJobApp == was.ledger.currentJobApp && w.units <= was.units
            && w.ledger == WriteAll(was.ledger, WritesIn(events[p..]))
  {
    if p == |events| {
      assert events[..p] == events && events[p..] == [];
    } else {
      var before, e := events[..|events| - 1], events[|events| - 1];
      assert before[..p] == events[..p];
      StaysStale(before, p);
      StaleStep(Run(before).value, e);
      WritesInGrows(events, p);
      var ws := WritesIn(before[p..]);
      assert e.Wrote? ==> (ws + [e.write])[..|ws + [e.write]| - 1] == ws;
    }
  }
}

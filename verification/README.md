# Palmimo Portal: verified models of its hardest parts

The Portal runs on a robot and installs, updates, starts and deletes apps on it. It can lose power
at any moment, several requests work at once, and what survives is a ledger file, a directory tree and
systemd units. This project models the parts of the Portal where that is hard to get right, and
proves what the code keeps, over every run. All paths below are those of the Portal's repository.

## The modules

| file | what it models |
|---|---|
| `JobProtocol.dfy` | install, update and delete jobs, starts and stops, settings, the sweep, maintenance, reset and startup recovery as one transition system over `apps.lock`, `run.lock`, the ledger, `apps/<id>`, `.staging`, `.trash`, sync units and app units; the Portal can be killed between any two steps |
| `JobSafety.dfy`, `JobRecovery.dfy`, `JobUpdates.dfy` | what every reachable state and every run of that system satisfies |
| `JobRuns.dfy` | concrete runs, one for each exception that those theorems name, and what a stale job costs |
| `Ledger.dfy`, `Sweep.dfy` | every transition the Portal writes to `apps.json`, and the periodic update check |
| `Checkout.dfy`, `StaticSwap.dfy`, `Updater.dfy`, `GitLocks.dfy` | the self-updater: the checkout marker, the swap of the frontend build, whole runs with failures and kills at every point, and stale git locks |
| `Manifest.dfy`, `Patterns.dfy`, `Snapshot.dfy`, `Placeholders.dfy`, `Rendering.dfy` | the manifest validator, its check on patterns, its ledger snapshot, template scanning and the command renderer |
| `Preemption.dfy` | display-firmware maintenance and the record of the app it stopped |
| `LineFramer.dfy`, `NetworkOrder.dfy`, `EnvFile.dfy`, `LoginLimiter.dfy`, `AppNames.dfy`, `SessionEpochs.dfy` | the socket framer, saved-network order, the env file against systemd's rules, the login limiter, app ids, and sessions across key changes |
| `Prelude.dfy`, `Outcomes.dfy`, `Values.dfy` | shared vocabulary |

Where the source changes state step by step, the module has a class or a method with a loop, and each
method is proved equal to a function on values; the theorems about whole runs are about those
functions. Every operation that can fail takes its outcome as a parameter, so that a
theorem over all parameters is a theorem over all failures and kill points.

## Results that are not what the documentation promises

* **A start that can neither stop an orphan sync unit nor take `apps.lock`** (a blind start, below). Startup
  logs the error and goes on with the lock free, so that build code can run beside apps
  (`palmimo_portal/api/app.py:415-447`). `JobSafety.GuardedExactly` proves that this is the only way, as an
  if and only if, and `JobSafety.ContainedAgain` that the next start that confirms every orphan stopped restores containment.
  `JobRuns.BlindRunExists` and `JobRuns.ContainmentCanBreak` give runs. That at most one app is active does
  not depend on it (`JobSafety.AtMostOneApp`).
* **An update can lose an accepted settings write.** After its registering write an update is no longer the
  current job, so `PUT /apps/{id}/source` is accepted again; an update that then cannot remove the old tree
  writes its record once more and puts its own source back (`palmimo_portal/core/apps_jobs.py:1076-1083`).
  `JobRuns.AcceptedSourceIsLost` gives a run, and `JobUpdates.UpdateLosesSettingsExactly` the exact condition
  over all runs: the last source change accepted in between asks for another ref than the update's, or a params
  write in between sets a param that the update dropped.
* **Recovery that raises leaves a dead job current.** Startup catches the exception and serves.
  `JobRecovery.StartupEndsJobExactly` says exactly when the job is resolved, `JobRuns.StaleJobExists` gives a
  run, and `JobRuns.StaleJobBlocks` what it costs: until the next job, reset or start no app can be started.
* **The frontend can be lost without a kill.** If a swap's second rename fails and its undo fails too, and
  another update runs before the next boot, that update first deletes `static.prev`, the only
  build there is. `Updater.UpdateIsSafeExactly` gives the exact condition (`static/` exists as the
  update begins, or the dirty tree refuses it), `Updater.FrontendCanBeLost` the run, and
  `Updater.FrontendIsNeverLost` the promise for every run whose updates begin that way, whatever fails.
* **A bool param named `host` or `app_dir`** takes over a command element that is just that placeholder.
  `Rendering.ElementMeansItsTokensExactly` and `Rendering.RenderingMeansItsTokensExactly` are the exact
  statements; the validator accepts such a manifest (`Rendering.ShadowedManifestIsAccepted`).
* **A param whose `type` is a list or a table** makes the validator raise `TypeError` instead of reporting a
  violation. `Manifest.CrashesExactly` says exactly when, `Manifest.CrashingDocument` gives a document.
* **The pattern check is stricter than Python where a class begins with `]`**: `[](]` has no group, and is
  refused. `Patterns.SafeIsGroupless` proves that it lets no group through, and refuses nothing else elsewhere.
* **A display rename does not reach the ledger.** A comment in `palmimo_portal/core/apps_jobs.py:1048-1052`
  expects it to; `_merge_job_record` does not copy `name`. The model follows the code
  (`JobUpdates.NoUpdateIsLost`).
* **Saving a network first or last** is exact only up to the priority caps: `NetworkOrder.SavedFirstHeadsExactly`,
  `NetworkOrder.PromotedHeadsExactly` and `NetworkOrder.SavedLastEndsExactly`.
* **A Git host whose own name normalises to `palmimo`** shares the official namespace
  (`AppNames.ReservedExactly`); a host called `palmimo` is one (`AppNames.HostTakesOfficialNamespace`).

## Premises

* A sync-unit start that raises had no effect; app units become active only through the Portal's start;
  a stop that has an effect has it at once.
* A ledger or record write happens, or the process dies or raises without it. The ledger can be read.
* A rename either happens or does not.
* Job ids and signing keys are fresh. Requests to the session code are atomic but for kills.
* `git checkout` that succeeds leaves the tracked tree clean at its commit. The Portal's clone is a plain one.
* `str.lower()`, regular-expression compilation and matching, URL parsing and Python's `str()` are parameters.

## Model

| member | source | states |
|---|---|---|
| `JobSafety.MovesAreDisciplined` | `palmimo_portal/core/apps_job_runner.py:123-224` | every operation of every thread takes a lock only when it is free and gives up only what it holds; a thread without `apps.lock` only fills or removes a staging directory, or records the failure of a job whose lock the process keeps |
| `JobSafety.MovesHonour` | `palmimo_portal/core/apps_jobs.py:294-353` | given what its program point relies on, each operation keeps build code and apps apart and gives the next point what that relies on |
| `JobSafety.RunKeepsInv` | `palmimo_portal/core/apps_job_runner.py:141-403` | the safety invariant holds after every sequence of events |
| `JobSafety.AtMostOneApp` | `palmimo_portal/core/apps_start.py:211-223` | in every reachable state of every run, at most one app unit is active, and it is in the ledger |
| `JobSafety.BuildCodeIsContained` | `palmimo_portal/core/apps_jobs.py:294-353` | in every reachable state a live sync unit excludes every app unit, and once startup has dealt with orphans it means `apps.lock` is held; excepted are the states from a blind start to the next start that confirms every sync unit stopped |
| `JobSafety.ProcessIsGuarded` | `palmimo_portal/api/app.py:415-447` | whatever earlier processes did, in a process whose own start was not blind a live sync unit means `apps.lock` is held |
| `JobSafety.ContainedAgain` | `palmimo_portal/api/app.py:435-437` | after any run, a start that confirms every orphan stopped restores containment, until the next blind start |
| `JobSafety.GuardedExactly` | `palmimo_portal/api/app.py:415-447` | a run is guarded throughout if and only if no start found a live sync unit and then failed to take the lock |
| `JobSafety.BlindStep` | `palmimo_portal/api/app.py:415-447` | the first such start is where the guard is lost |
| `JobRuns.BlindRunExists` | `palmimo_portal/api/app.py:415-447` | a concrete run: a killed install's unit survives, and the next start serves with the lock free |
| `JobRuns.ContainmentCanBreak` | `palmimo_portal/api/app.py:415-447` | a concrete run that goes on from there: an app is started while the unit lives |
| `JobSafety.LockReleasedOnce` | `palmimo_portal/core/apps_job_runner.py:72-74` | `apps.lock` is released exactly once per acquisition, by its holder, and for good, except when it is kept because a sync unit could not be contained |
| `JobRecovery.WritesKeepLedger` | `palmimo_portal/core/apps_job_runner.py:405-468` | every write a job makes keeps the accepted job findable and tells the job's next step the truth about the ledger |
| `JobRecovery.EffectsKeepTrees` | `palmimo_portal/core/apps_jobs.py:859-919` | every effect on the disk leaves each app tree whole, and the tree of the job's app old, new or absent |
| `JobRecovery.OnlyOneWorks` | `palmimo_portal/core/apps_job_runner.py:123-139` | while another thread relies on the ledger or a tree, a move touches neither, nor that thread's staging directory |
| `JobRecovery.RunKeepsSound` | `palmimo_portal/core/apps_jobs.py:859-1155` | the recovery invariant holds after every sequence of events, kills included |
| `JobRecovery.RecoveryRestores` | `palmimo_portal/api/app.py:451-495` | when recovery completes, whatever was killed where: no job is current, every directory is a ledger key, an app is marked broken exactly when its manifest or environment is missing, and every tree is wholly old, wholly new, or absent and its app marked broken |
| `JobRecovery.LedgeredAppsAreNotSwept` | `palmimo_portal/core/apps_jobs.py:1279-1313` | no step of recovery touches the tree of an app in the ledger |
| `JobRecovery.TreesChangeOnlyByTheirJob` | `palmimo_portal/core/apps_jobs.py:859-1155` | a thread changes an app's tree only as that app's job, or as a reset |
| `JobRecovery.DirectoriesAreLedgered` | `palmimo_portal/core/apps_jobs.py:1293-1313` | in a recovered process, a directory outside the ledger is one that the holder of `apps.lock` is registering or deleting |
| `JobRecovery.AcceptedJobStaysFindable` | `palmimo_portal/api/apps.py:985-997` | the job accepted last is found in every later state of the process, as current, last or orphan job |
| `JobRecovery.AcceptanceChanges` | `palmimo_portal/core/apps_job_runner.py:160-169` | only the next accepted job, a reset or the death of the Portal ends that |
| `JobRecovery.FailingJobIsCurrent` | `palmimo_portal/core/apps_job_runner.py:441-468` | a job that fails, contained or not, finds itself in the ledger as the current one |
| `JobRecovery.DeleteStepHolds` | `palmimo_portal/core/apps_job_runner.py:307-403` | what each step of a delete does to the record it carries, in every reachable state |
| `JobUpdates.DeleteIsAllOrNothing` | `palmimo_portal/core/apps_job_runner.py:307-403` | over whole runs, from the step that drops the record to the delete's last write: the app is absent from the ledger throughout; in the end it is gone from ledger and disk, or its record is back unchanged but for `last_job`; every other record is its last accepted writers' |
| `JobRecovery.RecoveryIsIdempotent` | `palmimo_portal/core/apps.py:231-268` | whatever starts, kills and recovery steps follow a crash, a recovery that completes leaves the ledger and trees that one undisturbed recovery would have left |
| `JobRecovery.StartupEndsJobExactly` | `palmimo_portal/api/app.py:472-493` | when startup begins to serve, a dead process's job is resolved if and only if finalize completed or there was none |
| `JobRuns.StaleJobExists` | `palmimo_portal/api/app.py:451-495` | a concrete run in which it is not: the cleanup of a start raises, and the Portal serves with the dead job current |
| `JobRuns.StaleJobBlocks` | `palmimo_portal/core/apps_start.py:217-218` | after any run that ends so, until the next job, reset or start: the job stays current, no app starts, the ledger changes only by settings writes, and the params and source of the job's app not at all |
| `JobProtocol.FoundOn` | `palmimo_portal/core/apps_jobs.py:1257-1276` | the disk checks of startup answer for every app of the ledger |
| `Ledger.Write` | `palmimo_portal/adapters/state.py:1044-1048` | no settings write, sweep or progress write adds or removes an app |
| `Ledger.WriteAllKeepsJobs` | `palmimo_portal/api/apps.py:1080-1085` | any sequence of them leaves jobs, and the fields a job owns, as they were |
| `Ledger.SweepTouchesThreeFields` | `palmimo_portal/core/periodic.py:176-194` | the sweep writes three fields of apps still in the ledger, nothing else, and resurrects none |
| `Ledger.RefusalIsStable` | `palmimo_portal/api/apps.py:506-516` | whether a settings write is refused depends on nothing that settings and sweeps change, but for a source change to an app without a job, whose tag may be managed |
| `Ledger.SettingsLand` | `palmimo_portal/api/apps.py:1047-1398` | after any sequence of settings writes and sweeps, an app's label, autostart, params and source are those of their last accepted writer |
| `Ledger.SettingsDuringJob` | `palmimo_portal/api/apps.py:1252-1274` | while a job targets an app, its params and source do not change |
| `Ledger.CompletionSparesOthers` | `palmimo_portal/core/apps_job_runner.py:405-431` | other apps keep everything but a credential mark that a working credential clears |
| `Ledger.NoLostUpdates` | `palmimo_portal/core/apps_job_runner.py:88-111` | after any interleaving of settings and sweeps with a job, at one completion: owner's choices from their last accepted writer, results from the job, params those set minus those dropped; every other app's record its last writers' |
| `Ledger.SecondWriteLosesExactly` | `palmimo_portal/core/apps_jobs.py:1076-1083` | the second write of an update loses an accepted setting if and only if the last source change in between asks for another ref, or a params write in between sets a dropped param |
| `JobUpdates.LedgerDuringJob` | `palmimo_portal/core/apps_job_runner.py:141-305` | in every run of the protocol, through each stretch of a job between two of its writes, nothing but settings writes, sweeps and progress changes the ledger |
| `JobUpdates.InstallAddsItsRecord` | `palmimo_portal/core/apps_job_runner.py:405-431` | over whole runs: an install adds exactly its record, settings for the app that did not exist leave nothing behind, and every other app's record is its last accepted writers' |
| `JobUpdates.NoUpdateIsLost` | `palmimo_portal/core/apps_job_runner.py:88-111` | no lost updates over whole runs: whatever other threads, the owner and the sweep do between an update's first write and its registering write, the record then has the owner's choices from their last accepted writer, its own results and its old display name, and every other app's record is its last writers' |
| `JobUpdates.UpdateLosesSettingsExactly` | `palmimo_portal/core/apps_jobs.py:1076-1083` | the same through the update's last step: label, autostart and every other record are their last writers' in any case, and an accepted setting is lost under exactly the condition above |
| `JobRuns.AcceptedSourceIsLost` | `palmimo_portal/api/apps.py:1350-1398` | a concrete run in which an accepted source change is lost so |
| `Ledger.FinalizeMarksBroken` | `palmimo_portal/core/apps.py:231-268` | finalize marks an app broken exactly when manifest or environment is missing, and leaves no job current |
| `Ledger.FinalizeIdempotent` | `palmimo_portal/core/apps.py:231-268` | finalizing twice is finalizing once, at whatever times |
| `Sweep.Derive` | `palmimo_portal/core/periodic.py:133-162` | the two loops derive, for each app and in any order, its own news, its own refusal, or the refusal of its credential's scope |
| `Sweep.RunGitCheckSweep` | `palmimo_portal/core/periodic.py:104-197` | a sweep that gets both locks writes exactly what it derived, onto the apps it finds; otherwise nothing |
| `Sweep.RefusalReachesTheScope` | `palmimo_portal/core/periodic.py:141-162` | a refused credential marks every app of its scope, except one whose own check brought news |
| `StaticSwap.StaticDirs.SwapIntoPlace` | `palmimo_portal/adapters/static_asset.py:198-228` | the swap step by step, equal to its specification for every outcome of every operation |
| `StaticSwap.StaticDirs.RepairStaticDir` | `palmimo_portal/adapters/static_asset.py:249-297` | the boot repair step by step, equal to its specification |
| `StaticSwap.SwapInstallsOrKeeps` | `palmimo_portal/adapters/static_asset.py:198-228` | a swap that returns has installed the staged build; one that does not leaves the old build, the new one, or the old one set aside |
| `StaticSwap.RepairServes` | `palmimo_portal/adapters/static_asset.py:249-297` | repair serves the build that was set aside and changes nothing while `static/` exists |
| `StaticSwap.RepairIsIdempotent` | `palmimo_portal/adapters/static_asset.py:249-297` | a repair that is killed and run again serves what one repair serves |
| `StaticSwap.SwapIsSafeExactly` | `palmimo_portal/adapters/static_asset.py:198-228` | a swap keeps a build through every failure and kill if and only if `static/` exists as it begins |
| `Checkout.Clone.ClearMarkerIfTreeIsClean` | `palmimo_portal/adapters/git_uv_updater.py:258-276` | equal to its specification for every outcome |
| `Checkout.Clone.ResolveMarkerAfterCheckoutFailure` | `palmimo_portal/adapters/git_uv_updater.py:288-301` | equal to its specification for every outcome |
| `Checkout.Clone.CheckoutTag` | `palmimo_portal/adapters/git_uv_updater.py:303-354` | equal to its specification for every outcome of status, verify, marker, checkout and recheck |
| `Checkout.CheckOutKeepsAttested` | `palmimo_portal/adapters/git_uv_updater.py:303-354` | debris stays attested by the marker; an edit made without a marker stops the checkout before it changes anything; success is clean, on the tag, unmarked; the marker goes only when the tree is clean |
| `Updater.GitUvUpdater.Run` | `palmimo_portal/adapters/git_uv_updater.py:224-235` | one `apply`, equal to its specification for every outcome |
| `Updater.ApplyKeeps` | `palmimo_portal/adapters/git_uv_updater.py:224-235` | what one attempt keeps of tree, marker and builds, wherever it stops |
| `Updater.OneCleanAttemptRepairs` | `palmimo_portal/adapters/git_uv_updater.py:224-354` | after any run, an attempt whose commands all succeed installs its tag cleanly, unless there is an edit made while no marker existed; then it changes nothing but the staging directory |
| `Updater.OperatorEditsSurvive` | `palmimo_portal/adapters/git_uv_updater.py:303-354` | an edit made outside any update while no marker exists survives everything but the operator |
| `Updater.MarkerGoesOnlyWhenClean` | `palmimo_portal/adapters/git_uv_updater.py:288-301` | over every run, the marker goes only by the updater and only when the tree is clean |
| `Updater.ServedBuildWasInstalled` | `palmimo_portal/adapters/git_uv_updater.py:433-442` | in every reachable state, the build served or set aside is of a tag whose checkout and sync completed |
| `Updater.InstalledMeansCheckedOutAndSynced` | `palmimo_portal/adapters/git_uv_updater.py:224-235` | a tag counts as installed only from a state where the tree is clean at it and the environment in step |
| `Updater.FrontendIsNeverLost` | `palmimo_portal/adapters/static_asset.py:198-297` | in every state of every run whose updates each begin with `static/` present or are refused for the dirty tree, whatever fails and wherever it is cut, `static/` is whole, or it is absent and `static.prev` is |
| `Updater.FrontendIsServedWhileUp` | `palmimo_portal/adapters/static_asset.py:198-297` | in every state of every run without a failed undo, it is `static/` while the Portal is up |
| `Updater.UpdateIsSafeExactly` | `palmimo_portal/adapters/static_asset.py:211-228` | after any run, the next update cannot cost the frontend if and only if `static/` exists or the update is refused for a dirty tree |
| `Updater.FrontendCanBeLost` | `palmimo_portal/adapters/static_asset.py:211-228` | the run that loses it |
| `GitLocks.LockSweeper.SweepStaleLocks` | `palmimo_portal/adapters/git_uv_updater.py:356-400` | the sweep removes exactly the removable stale locks and keeps exactly the right first-seen times |
| `GitLocks.LiveLocksAreSpared` | `palmimo_portal/adapters/git_uv_updater.py:356-400` | a lock newer than the marker is removed only after it was there at every sweep of at least 600 seconds |
| `GitLocks.StaleLocksAreRemoved` | `palmimo_portal/adapters/git_uv_updater.py:376-394` | a lock watched that long is removed if and only if it is still there and can be unlinked |
| `Patterns.IsSafePattern` | `palmimo_portal/core/manifest.py:58-73` | the scan accepts exactly the patterns of a grammar: a sequence of escaped characters, classes, and plain characters that open no group, class or alternation |
| `Patterns.SafeIsGroupless` | `palmimo_portal/core/manifest.py:58-73` | no accepted pattern has a group or an alternation as Python reads it; where no class begins with `]`, only those and unfinished patterns are refused |
| `Patterns.LeadingBracketRefused` | `palmimo_portal/core/manifest.py:58-73` | a pattern without any group that is refused for such a class |
| `Manifest.ValidateParamValue` | `palmimo_portal/core/manifest.py:501-527` | reports every fault of a value for each of the five types |
| `Manifest.ParseEnv` | `palmimo_portal/core/manifest.py:274-306` | the env entries without fault, and the first fault of each other entry |
| `Manifest.ParseParams` | `palmimo_portal/core/manifest.py:327-359` | the params that can be read, every fault of every entry, and exactly when it crashes |
| `Manifest.ValidatePlaceholders` | `palmimo_portal/core/manifest.py:422-435` | reports exactly the undefined placeholders and the bool placeholders mixed with text |
| `Manifest.ValidateManifestDict` | `palmimo_portal/core/manifest.py:214-271` | reports every rule the document breaks and no other; accepts exactly when none is broken |
| `Manifest.CrashesExactly` | `palmimo_portal/core/manifest.py:339-340` | the validator raises `TypeError` exactly for a well-named param table whose `type` is a list or a table |
| `Manifest.CrashingDocument` | `palmimo_portal/core/manifest.py:339-340` | such a document |
| `Snapshot.ParamSnapshot` | `palmimo_portal/core/manifest.py:146-164` | the entry of one param: what is set beyond the defaults |
| `Snapshot.ManifestSnapshot` | `palmimo_portal/core/manifest.py:143-181` | the snapshot built entry by entry equals its specification |
| `Snapshot.ParamRoundTrip` | `palmimo_portal/core/manifest.py:362-419` | every readable param, of each type, is read back from its snapshot as itself |
| `Snapshot.EnvRoundTrip` | `palmimo_portal/core/manifest.py:274-306` | so is every faultless env entry |
| `Snapshot.SnapshotRoundTrip` | `palmimo_portal/core/manifest.py:143-198` | for every document the validator accepts, the snapshot of its manifest is accepted and means the same manifest, translations erased |
| `Placeholders.ScanSpells` | `palmimo_portal/core/manifest.py:45-48` | scanning a template for placeholders loses nothing |
| `Placeholders.NamesAreHoles` | `palmimo_portal/core/manifest.py:45-48` | the names found are those of the placeholders, and hold no brace |
| `Rendering.ResolveParams` | `palmimo_portal/core/manifest.py:483-498` | every declared param gets a stored value that fits or its default, or every one that does not is reported |
| `Rendering.ResolveCommand` | `palmimo_portal/core/manifest.py:438-450` | refuses exactly when a param does not resolve, and else renders element by element |
| `Rendering.ElementMeansItsTokensExactly` | `palmimo_portal/core/manifest.py:530-552` | when the prechecks pass, an element's text is its tokens rendered once, values inert, for every host and directory, if and only if no bool param shadows it |
| `Rendering.RenderingCannotFail` | `palmimo_portal/core/apps_start.py:246-270` | passing prechecks make rendering total for every accepted manifest: it neither refuses nor raises |
| `Rendering.RenderingMeansItsTokensExactly` | `palmimo_portal/core/manifest.py:438-450` | the whole argument list is the one meant, for every host and directory, if and only if no element is shadowed |
| `Rendering.ShadowedManifestIsAccepted` | `palmimo_portal/core/manifest.py:422-435` | the validator accepts a manifest with such an element |
| `Rendering.NoBoolIsPrinted` | `palmimo_portal/core/manifest.py:530-552` | how a bool would print makes no difference to any command |
| `LineFramer.Receiver.TakePiece` | `palmimo_portal/adapters/wifi_qr_socket.py:114-125` | after every piece: delivered is the short lines so far, pending is the tail or nothing, never above the limit |
| `LineFramer.Receiver.Receive` | `palmimo_portal/adapters/wifi_qr_socket.py:103-126` | for any stream in any chunks, delivers exactly its newline-terminated lines of at most the limit, in order |
| `LineFramer.LinesSpell` | `palmimo_portal/adapters/wifi_qr_socket.py:113-114` | lines and tail are newline-free and spell the stream |
| `LineFramer.SentLinesArrive` | `palmimo_portal/adapters/wifi_qr_socket.py:52-66` | any newline-free lines that `send` accepts arrive intact and in order |
| `NetworkOrder.OrderedIsStableSort` | `palmimo_portal/adapters/networkmanager.py:235-237` | descending priority, the same profiles, ties in NetworkManager's order |
| `NetworkOrder.ListSaved` | `palmimo_portal/adapters/networkmanager.py:246-258` | lists the first profile of each SSID in that order |
| `NetworkOrder.NetworkManager.Reorder` | `palmimo_portal/adapters/networkmanager.py:316-328` | accepts exactly the saved SSIDs without repetition, and then gives every profile of each its priority |
| `NetworkOrder.ReorderThenList` | `palmimo_portal/adapters/networkmanager.py:246-328` | after a successful reorder, listing returns exactly those SSIDs in that order, whatever priorities, ties and duplicates there were |
| `NetworkOrder.NetworkManager.Save` | `palmimo_portal/adapters/networkmanager.py:268-288` | which profile is added or changed, and to which priority |
| `NetworkOrder.SavedFirstHeadsExactly` | `palmimo_portal/adapters/networkmanager.py:272-282` | a new network saved first heads the list if and only if no profile before it is at 999 |
| `NetworkOrder.PromotedHeadsExactly` | `palmimo_portal/adapters/networkmanager.py:283-287` | so does a known one that is saved first |
| `NetworkOrder.SavedLastEndsExactly` | `palmimo_portal/adapters/networkmanager.py:276-282` | a new network saved last ends the list if and only if every profile after it at its priority repeats an SSID listed before |
| `EnvFile.QuoteHead` | `palmimo_portal/adapters/rundir.py:32-43` | the two replacements in a row escape each character on its own |
| `EnvFile.EnvRoundTrip` | `palmimo_portal/adapters/rundir.py:70-73` | for valid names and any values, systemd's rules read the file back as exactly the mapping written |
| `LoginLimiter.LoginRateLimiter.TryAttempt` | `palmimo_portal/core/auth.py:320-333` | grants exactly while unlocked and within the budget, and reserves one slot |
| `LoginLimiter.LoginRateLimiter.RecordFailure` | `palmimo_portal/core/auth.py:291-306` | the state after a wrong password |
| `LoginLimiter.BudgetHolds` | `palmimo_portal/core/auth.py:233-333` | failures and open attempts never exceed the budget together; while locked none is open, so that no success can lift a lockout |
| `LoginLimiter.WindowBound` | `palmimo_portal/core/auth.py:291-333` | any window without a success holds at most `max_failures * (floor(W / lockout) + 1)` wrong passwords |
| `LoginLimiter.WindowBoundIsReached` | `palmimo_portal/core/auth.py:291-333` | for every number of lockout periods some run reaches that bound |
| `AppNames.NormalizeNamespace` | `palmimo_portal/core/apps.py:45-48` | every host or owner normalises to a namespace the ledger accepts |
| `AppNames.AppNamespace` | `palmimo_portal/core/apps.py:51-64` | so does every source |
| `AppNames.ReservedExactly` | `palmimo_portal/core/apps.py:51-64` | no GitHub owner gets a reserved namespace; exactly who gets the official one |
| `AppNames.HostTakesOfficialNamespace` | `palmimo_portal/core/apps.py:51-64` | a Git host called `palmimo` does |
| `AppNames.SuffixedDiffer` | `palmimo_portal/core/apps.py:73-75` | candidates with different numeric suffixes differ, however the name is cut |
| `AppNames.SuggestAppName` | `palmimo_portal/core/apps.py:67-78` | the id is free and one the ledger parser accepts; none is found exactly when all are taken, which needs 999,998 occupied ids |
| `Preemption.PreemptedAppIsRemembered` | `palmimo_portal/core/display_firmware.py:67-115` | over every run with kills and failures, an app that maintenance stopped and nobody started since is in the ledger and named by the record |
| `Preemption.RecordIsNotOverwritten` | `palmimo_portal/core/display_firmware.py:79-101` | while an app is owed, nothing overwrites or clears the record |
| `Preemption.DebtEndsOnlyByStart` | `palmimo_portal/core/display_firmware.py:19-51` | an app stops being owed only by a start or by leaving the ledger |
| `Preemption.StartupPays` | `palmimo_portal/core/display_firmware.py:54-64` | the next startup restore whose operations succeed starts it and clears the record |
| `SessionEpochs.StateStore.DeleteAuthFile` | `palmimo_portal/adapters/state.py:508-526` | rotation before unlink, equal to its specification for every outcome |
| `SessionEpochs.StateStore.ReadOrCreateInitialKey` | `palmimo_portal/adapters/state.py:609-637` | reads, creates or repairs, equal to its specification |
| `SessionEpochs.StateStore.CreateAuthFile` | `palmimo_portal/adapters/state.py:490-498` | creates only what is absent; killed, it may leave an incomplete file |
| `SessionEpochs.ResetAllowedExactly` | `palmimo_portal/core/auth.py:417-453` | a reset is allowed if and only if the identity is read and credentials exist, readable or not |
| `SessionEpochs.VerifyingTokensAreCurrent` | `palmimo_portal/api/app.py:333-355` | after any requests killed anywhere, a token that verifies was minted after the last completed promotion, change or reset |
| `SessionEpochs.CompletionRevokesAll` | `palmimo_portal/core/auth.py:131-186` | completing one of them revokes every token there was |
| `SessionEpochs.FullSessionsNeedThePassword` | `palmimo_portal/api/app.py:333-355` | a session is full if and only if its token was signed with the key beside the password |
| `SessionEpochs.NoIdentityNeverReopens` | `palmimo_portal/core/identity.py:51-70` | no requests take a device without an identity file from set back to open set-up |

## Left out

- The job protocol, its recovery and the maintenance of `Preemption.dfy` are transition systems on values rather than classes: their claims are about interleavings of threads and kills between any two steps, which a method call cannot express.
- Reading another app's unit status is one step per app; an answer that is stale by the time it is used is covered by the interleaving of unit exits only.
- Purging of trash and of the uv cache, secret bindings, run directories, restoring the persistent app cache, and polkit are not modelled; `purge-*` instances are not dependency syncs.
- A ledger that is corrupt or in the legacy format, for which recovery is skipped, is not modelled.
- A params write is refused for what the ledger says; that its values are also validated against the manifest on disk is not modelled.
- Timestamps in the protocol are constants; `Ledger.dfy` carries them.
- `update_git` purges parts of the staging directory before its swap; the model keeps the staging directory as one tree.
- Operator edits during an update, `.git` as a file (where the marker is a no-op), tar extraction and download are not modelled; neither is a failing progress callback.
- The validator's messages are values, and a set rather than a list: their wording and order are not modelled. Python's `True == 1` for `schema`, and overflow of `isfinite` on huge integers, are not modelled; numbers, bools and strings are distinct.
- `resolve_url` renders by the same function as a command element and is not stated separately.
- JSON decoding and dispatch of a delivered socket line are not modelled.
- The systemd reader in `EnvFile.dfy` follows the rules of systemd.exec(5) for `EnvironmentFile=`; systemd's own source is not part of this model.
- Wi-Fi setup appears in `Preemption.dfy` only through what it writes to the record and the apps it starts and stops.
- Password hashing, token signing and expiry, the login rate limit's place in requests, and concurrent requests on the session files are not modelled.
- Seconds-remaining queries, the reset throttle, catalog and platform caches, SSH keys and the scheduler interval would only add easy members.

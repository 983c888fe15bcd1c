# HomeDrive, verified

A Dafny model of the parts of HomeDrive whose mistakes would be hard to see in a review: the
planner that installs, upgrades and removes the apps of a drive, the protocol that moves a drive to
a new release across crashes, the ladder a Nextcloud upgrade climbs, the listeners that bring
connections in, the login limiter, the task queue and the shell quoter. To verify:

    dafny verify dfyconfig.toml

## How it is laid out

| module | models |
|---|---|
| `Basics`, `DrvApi` | small notions; the records of `drvapi/` |
| `DepGraph` | walks, what a set of roots needs, which names resolve, the floor of a name: the reference the closure builder is proved against |
| `AppClosures` | `jarvis/app_closure.go`, as a class updated in place |
| `AppRegistries` | `jarvis/app_registry.go` and the legacy app list of `drvapi/release.go` |
| `AppsPlan` | what applying a set of anchors means, on values |
| `AppsControl` | `jarvis/apps.go` and `jarvis/apps_state.go`, as classes over a store and running apps that may fail at any call |
| `AppsRuns` | retries, crashes with reloads, and histories of installs, uninstalls and updates |
| `Updates`, `UpdateRuns` | `jarvis/update.go`, `jarvis/install.go` and the start of a process; histories of tasks and restarts |
| `Semver`, `Nextclouds`, `HomeBoot` | version parsing, the upgrade ladder, and the download that must cover it |
| `Tunnel`, `Reconnect`, `FabricsTunnels`, `TlsProxies` | the listeners of `doorway/`, as transition systems; the two of them run together; the proxy loop on top |
| `Logins` | the sliding-window limiter |
| `TaskLoops` | the serial task queue |
| `Quoting` | the shell quoter and a reader of shell words |

## How failures and crashes are modelled

Every call to the outside (a change of an app, a write to the settings, a container, a download)
is a method that may fail. A failed change leaves its own app, and no other, in any condition; a
failed write may or may not have reached the store. A crash during a call is then a failing call
whose caller is gone: the next process starts with what the store holds.

Failed calls are counted: every class of the outside has a ghost `faults`, which rises by one with a
call that fails and never otherwise. So "only the outside is to blame" is said with a number: an
operation that is possible succeeds whenever the count has not risen, and code that gave up without
a failing call, or returned an error instead of acting, would break its contract.

`World.points` is a ghost log of what memory, the store, the running apps and the stubs looked like
just before each call, so a promise about every intermediate moment is a promise about that log.

Four predicates carry the contracts of `Apps.Apply` and of everything built on it:

- `Travelled(q, g, b, s)`: on the way from scene `b` to `s`, every call was in good order
  (`GoodPoint`), and memory and the store only progressed: each app is as it was, or brought up to
  the manifest, or (if not kept) gone. `GoodPoint` says of a call that installs or upgrades an app
  that the app is kept, not current, not downgraded, and that all its dependencies are recorded at
  the manifest's version already; of a call that uninstalls, that the app is not kept, that no app
  still there depends on it, and that every kept app is current. If memory, store and system agreed
  at `b`, they agree at each change, and store and system differ in at most the one app being
  changed at each save. Every name in memory has a stub at every call. And what runs only changes
  for apps there was something to do about.
- `Arrived(q, g, b, s)`: memory and store are exactly the target; and so is what runs, if and only if
  it stood apart from memory, at `b`, only for apps there was something to do about.
- `Able(q, g, metas, known)`: a plan can be made, it downgrades nothing, and the maker knows every
  app to keep. Then `Apply` succeeds unless a call fails.
- `Explained(e, g, b)`: a plan that cannot be made changes nothing; a plan that can be made is only
  stopped by a downgrade, by an app the maker does not know, or by a call that failed.

## Where the code does less than one would wish

- A pending release is taken up by a restart exactly if it has a name and the drive has a build
  (`UpdateRuns.ResumedExactlyIfNamedAndInstalled`). `UpdateRuns.PushedBeforeTheFirstInstall` gives an
  input: a manual build pushed to a drive that was never installed, whose core is replaced, stays
  pending although nothing fails; without a channel no number of restarts changes that
  (`UpdateRuns.NothingIsResumedWithoutABuild`).
- An installed app that the manifest does not list, or that needs an unlisted or a circular one,
  blocks every later operation, also one that has nothing to do with it, and nothing else does so for
  all anchors (`AppsRuns.BrokenAppBlocksEveryApply`; an input: `AppsRuns.LeftoverApp`).
- A restart finishes an update on whatever core it finds. So a replacement of the core that failed is
  not made up for (`UpdateRuns.OldCoreIsKept`): an update ends on the core its release names exactly if
  that core ran from the start or some task replaced it (`UpdateRuns.CoreOfInterrupted`).
- An operation that failed and was given up for another one leaves the app it was changing as it is,
  unless the other operation has something to do about that very app
  (`AppsRuns.SuccessMendsExactly`, `AppsRuns.AnotherGoalMendsExactlyItsOwn`). So an update after an
  uninstall that failed half-way succeeds and leaves a broken app (`AppsRuns.AbandonedUninstall`).
- Uninstalling a list that names an app twice is refused (`AppsControl.WithoutNames`).
- A download covers the climb exactly if it did not record a later major than the one the upgrade
  detects (`HomeBoot.DownloadCoversClimb`). It does record one after an upgrade over a ladder with a
  gap, which ends below its target (`HomeBoot.GapInTheLadder`).
- A rerun of an upgrade starts at the rung its hint names exactly if that rung's label is the major
  of its version (`Nextclouds.RerunStartsAtTheLastRung`; a mislabelled rung:
  `Nextclouds.MislabelledRung`); the release builder makes it so (`Nextclouds.BuildSteps`).
- The merged listener may still accept a connection from fabrics after it was closed, one at most
  (`Reconnect.AtMostOneLateHandOver`, and it happens: `Reconnect.OneLateHandOverHappens`).

## Model

| member | source | states |
|---|---|---|
| DepGraph.ResolvesIffNotBroken | jarvis/app_closure.go:41-97 | a name can be laid out in finitely many floors exactly if no walk from it meets an unknown name or comes back to a name it passed |
| DepGraph.NeedsIsLeast | jarvis/app_closure.go:99-105 | every set that holds the roots and is closed under `Deps` holds all that the roots need |
| DepGraph.NeedsIsClosed | jarvis/app_closure.go:99-105 | if the roots resolve, what they need is such a set itself, so it is the least one |
| DepGraph.FloorUnfold | jarvis/app_closure.go:79-96 | the floor of an ignored name is 0, of another one more than the highest floor among its dependencies |
| DepGraph.FloorIsLongestChain | jarvis/app_closure.go:79-96 | a floor number is the length of the longest dependency chain below the name, and nothing else is |
| AppClosures.ExplainedIsBroken | jarvis/app_closure.go:48-60 | an error of `add` at an empty trace means the name is broken: the reported chain of imports is a walk to an unknown name, or to the start of exactly the circle reported |
| AppClosures.FloorMapIsCanonical | jarvis/app_closure.go:79-96 | two closures over the same names have the same floor map, whatever was added in which order |
| AppClosures.PuttingKeepsLayout | jarvis/app_closure.go:90-95 | putting a new app on its floor keeps the floors the exact inverse of the floor map, each app once |
| AppClosures.AppClosure.constructor | jarvis/app_closure.go:33-39 | the empty closure is well-formed for every manifest |
| AppClosures.AppClosure.Add | jarvis/app_closure.go:41-97 | terminates on every manifest, cyclic or not; on success the name resolves, the result is its canonical floor, and the closure grew by exactly what the name needs; an error names a real defect; the trace is restored either way |
| AppClosures.AppClosure.AddDeps | jarvis/app_closure.go:79-88 | the loop over the dependencies ends with the floor above all of them and everything they need in the closure |
| AppClosures.AppClosure.Place | jarvis/app_closure.go:90-96 | grows the floors as needed and puts the app on its canonical floor, keeping the closure well-formed |
| AppClosures.AppClosure.FirstOnTrace | jarvis/app_closure.go:49-55 | finds where on the trace a circle starts, the first occurrence |
| AppClosures.AppClosure.AppSet | jarvis/app_closure.go:99-105 | the set of names in the closure |
| AppClosures.AppClosure.RevFloors | jarvis/app_closure.go:109-116 | the floors in reverse order, all of them |
| AppRegistries.ManifestIsKeyed | jarvis/app_meta_util.go:22-28 | every meta sits under its own name, the last one of a name counts, and nothing else is in the manifest |
| AppRegistries.LegacyNextcloudHasTheReleaseLadder | drvapi/release.go:97-134 | a release without an app list offers nextcloud with exactly the ladder the release ships |
| AppRegistries.ListedAppsAreOffered | jarvis/app_registry.go:27-39 | a release that lists apps offers exactly those, of two with one name the later one |
| AppRegistries.LegacyAppsAreOffered | drvapi/release.go:97-134 | a release without an app list offers redis, postgres, ncfront and nextcloud, each if the artifacts name its image, with that image, and nextcloud on top of the three others |
| AppRegistries.AppRegistry.MakeManifest | jarvis/app_meta_util.go:22-28 | the loop fills the manifest that the metas describe |
| AppRegistries.AppRegistry.SetRelease | jarvis/app_registry.go:27-58 | from here on the registry answers for the given release, and its manifest is keyed by name |
| AppsPlan.InterruptedRunHeadsTheSameWay | jarvis/apps.go:127-224 | whatever an interrupted run left behind has the same target, can still be planned if it could before, and meets no new downgrade |
| AppsPlan.AppliedIsInstalled | jarvis/apps.go:127-224 | the target is the closure of the anchors, all of it current |
| AppsPlan.TargetFieldByField | jarvis/apps.go:26-30 | in the target every kept app's recorded version, semantic version and image are the manifest's |
| AppsPlan.TodoFieldByField | jarvis/apps.go:26-30 | there is something to do about an app to keep exactly if it is missing or one of the three fields differs |
| AppsPlan.DowngradeFieldByField | jarvis/apps.go:152-162 | nothing is a downgrade but a version that would go down: equal versions may move in the other fields |
| AppsPlan.PlannableMeansAllResolve | jarvis/apps.go:127-146 | a plan can be made exactly if every anchor and every installed app resolves by itself, whatever is to be kept |
| AppsPlan.GoodChangeIsProgress | jarvis/apps.go:148-216 | a change in good order keeps the run on its way |
| AppsControl.AppsState.SetMeta | jarvis/apps_state.go:31-40 | inserts or removes one meta and leaves the others |
| AppsControl.AppsState.List | jarvis/apps_state.go:60-67 | the installed names, each once |
| AppsControl.AppsState.SemVersions | jarvis/apps_state.go:69-75 | the recorded semantic version of every installed app |
| AppsControl.WithNames | jarvis/apps.go:227-233 | the anchors with the names added |
| AppsControl.WithoutNames | jarvis/apps.go:238-247 | the anchors without the names; refused exactly if a name is no anchor or is given twice |
| AppsControl.Apps.Open | jarvis/apps.go:47-66 | memory starts as what the store holds, with no stubs and no maker; fails exactly if the store cannot be read |
| AppsControl.Apps.SetMaker | jarvis/apps.go:68-79 | succeeds exactly if the maker knows every installed app, and then every installed app has a stub |
| AppsControl.Apps.StubOrMake | jarvis/apps.go:91-106 | the stub at hand or a new one; fails exactly if there is none and the maker is unset or does not know the name |
| AppsControl.FloorIsReady | jarvis/apps.go:148-186 | with all lower floors current, the dependencies of every app of a floor are current |
| AppsControl.TopIsFree | jarvis/apps.go:188-216 | of what is left to uninstall, no installed app depends on an app of the top floor, and none of that floor is kept |
| AppsControl.CallIsGood | jarvis/apps.go:175-177 | calling a change in good order, however it ends, keeps the run on its way: only the app called is disturbed |
| AppsControl.RecordIsGood | jarvis/apps.go:179-184 | recording a finished change and saving, whether or not the save gets through, keeps the run on its way |
| AppsControl.MendedExactlyIfSteady | jarvis/apps.go:148-221 | when a run has reached its target, what runs is what is recorded if and only if it stood apart, at the start, only for apps there was something to do about |
| AppsControl.Apps.Upgrade | jarvis/apps.go:149-185 | afterwards the app is current (all three fields, by `AppsPlan.TodoFieldByField`) and whatever was current still is; a current app is not called; fails only by a downgrade, an unknown app, or a call that failed |
| AppsControl.Apps.Remove | jarvis/apps.go:190-215 | afterwards the app is gone and nothing else; an app that is not there is passed over; fails only if a call failed |
| AppsControl.Apps.UpgradeFloors | jarvis/apps.go:148-186 | floor by floor upward: all kept apps end current, each brought up after its dependencies; the first call that fails ends it, and is the only one |
| AppsControl.Apps.RemoveFloors | jarvis/apps.go:188-216 | floor by floor downward: only the kept apps remain, none went before an app that depends on it; it ends early only if a call failed |
| AppsControl.Apps.BuildKeep | jarvis/apps.go:128-134 | succeeds exactly if all anchors resolve, and then with exactly what they need, laid out in floors |
| AppsControl.Apps.BuildUninstall | jarvis/apps.go:136-146 | succeeds exactly if every installed app outside the keep set resolves with the keep set ignored, and covers all of these |
| AppsControl.Apps.Plan | jarvis/apps.go:127-146 | succeeds exactly if a plan can be made, touching nothing; then with exactly what is to be kept, and a cover of all that has to go, laid out in floors |
| AppsControl.Apps.Apply | jarvis/apps.go:127-224 | however it ends, every step was in good order and store and system differ in at most one app; on success memory, store and running apps are the target, and the records are the kept apps with the manifest's version, semantic version and image; it succeeds whenever the goal is possible and no call fails, and an error otherwise names an unplannable goal (nothing was touched), a downgrade, an unknown app, or the one call that failed |
| AppsControl.Apps.SaveAnchors | jarvis/apps.go:218-221 | the anchors are recorded only once all kept apps are current and the others gone; fails exactly if the save fails |
| AppsControl.Apps.Install | jarvis/apps.go:226-235 | the promises of `Apply` for the anchors with the names added |
| AppsControl.Apps.Uninstall | jarvis/apps.go:237-249 | the promises of `Apply` for the anchors without the names; refused untouched exactly if a name is no anchor or is given twice |
| AppsControl.Apps.Update | jarvis/apps.go:251-259 | the promises of `Apply` for the anchors as they are |
| AppsControl.Apps.Reinstall | jarvis/apps.go:114-125 | calls one change from the recorded version to itself; memory and store stay as they are; succeeds exactly if the app is installed and the call does not fail |
| AppsRuns.RetriesConverge | jarvis/apps.go:127-224 | after any number of attempts cut short by a failing change, a failing save or a crash, retried in place or after a reload, the one that succeeds leaves memory, store and running apps as a single uninterrupted run would have |
| AppsRuns.RetriesStayPlannable | jarvis/apps.go:127-224 | no interruption makes the plan impossible or runs it into a downgrade |
| AppsRuns.FaultlessRetryArrives | jarvis/apps.go:127-224 | if the goal was possible at first, any retry without a failing call succeeds and arrives, however many faulty attempts came before |
| AppsRuns.OnlyUnfinishedAppsChange | jarvis/apps.go:148-216 | an attempt calls a change only for an app that was unfinished when it began |
| AppsRuns.ChangedExactlyIfOutOfDate | jarvis/apps.go:148-216 | a successful run calls a change of an app to keep if and only if it was missing or its version, semantic version or image differed from the manifest; of another app if and only if it was installed |
| AppsRuns.SavedChangesAreNotRepeated | jarvis/apps.go:152-160 | once an app's change is in the store, no later attempt calls a change of that app |
| AppsRuns.OneMoreApplyChangesNothing | jarvis/apps.go:148-224 | applying the same anchors to a finished system calls no change at all, and leaves memory and what runs as they are |
| AppsRuns.SuccessMendsExactly | jarvis/apps.go:152-155 | wherever it starts, a success ends with the recorded apps running if and only if those that were apart were unfinished for its goal |
| AppsRuns.AnotherGoalMendsExactlyItsOwn | jarvis/apps.go:152-155 | after a failure only one app is apart, and a success for any other goal, after a restart, mends it if and only if it was unfinished for that goal |
| AppsRuns.AbandonedUninstall | jarvis/apps.go:153-155 | an uninstall that fails half-way, then an update that succeeds and leaves the app broken |
| AppsRuns.BrokenAppBlocksEveryApply | jarvis/apps.go:136-146 | no plan can be made for any anchors if and only if some installed app is unlisted or leads, by its dependencies, to an unlisted or circular one |
| AppsRuns.LeftoverApp | jarvis/apps.go:136-146 | an installed app that nothing needs and the manifest lacks: installing a sound app is refused |
| AppsRuns.HistoryStaysInstalled | jarvis/apps.go:226-259 | after every operation of a history, under changing manifests, exactly the closure of the anchors is installed at the manifest's versions, semantic versions and images, and the anchors are those asked for |
| AppsRuns.VersionsNeverDecrease | jarvis/apps.go:152-162 | over any history the version of an app does not go down while the app stays installed |
| AppsRuns.InstallThenUninstallRestores | jarvis/apps.go:226-249 | installing names that were no anchors and uninstalling them restores installed metas and anchors |
| AppsRuns.AttemptOnce | jarvis/apps.go:127-224 | every call of `apply` is an attempt of the kind the results on retries are about |
| AppsRuns.Perform | jarvis/apps.go:226-259 | every successful install, uninstall or update is a step of the histories above, in memory and in the store; what runs ends equal to what is recorded exactly if it was apart only for unfinished apps; a possible one succeeds unless a call fails |
| Updates.Settings.SetPending | jarvis/update.go:105-107 | a write of the pending key that succeeds is there; one that fails may be |
| Updates.Drive.Boot | jarvis/server.go:57-101 | a new process knows what the store and the build key know, and has a stub for every installed app; it comes up exactly if both can be read and every installed app is one the maker knows |
| Updates.Drive.Prepare | jarvis/update.go:31-54 | the release the source has under the name, with every image an update needs in the store; a release that can be had is had, unless a call fails |
| Updates.Drive.PrepareInstall | jarvis/install.go:152-170 | the channel's release, with every image a first install needs in the store; a release that can be had is had, unless a call fails |
| Updates.Drive.Settle | jarvis/update.go:61-76 | the build key moves only after the doorway, and the pending key is cleared only after the build key |
| Updates.Drive.UpdateCore | jarvis/update_core.go:83-95 | the core is left alone exactly if it runs the wanted image; it is only replaced by that image, and by one that has a name (`homeboot/core.go:42-44`); otherwise only a failed call makes it fail |
| Updates.Drive.UpdateAppsAndDoorway | jarvis/update.go:31-77 | the apps are touched only with the images at hand, the build key moves only with the refetched release's apps and doorway in place, the pending key is cleared only after it; if the move is feasible it is made, unless a call fails |
| Updates.Drive.RunTask | jarvis/update.go:84-126 | nothing is touched before the release is recorded as pending; then a wrong core is replaced, by an image that has been fetched, and only that; on the right core, or if the core is looked after elsewhere, the rest of the move follows, and is made if feasible unless a call fails |
| UpdateRuns.OnlyTheRightCoreMovesOn | jarvis/update.go:114-122 | a task that finishes, or changes apps, doorway or build, does so on the core its release names; one that replaces the core leaves the next process that very image |
| UpdateRuns.CoreOfInterrupted | jarvis/update.go:114-122 | an update has got to the core its release names if and only if that core ran from the start or some task replaced it |
| UpdateRuns.FaultlessTaskSettlesTheCore | jarvis/update.go:84-126 | once a task of it ran without a failing call, an update goes on, and ends, on the core its release names |
| UpdateRuns.OldCoreIsKept | jarvis/main.go:49-64 | a replacement of the core that failed, and a faultless restart: the update completes on the old core, and no restart replaces it |
| Updates.Drive.MaybeFinishUpdate | jarvis/update.go:249-268 | takes up exactly a pending release with a name; if the move is feasible it is made, unless a call fails |
| Updates.Drive.DownloadAndInstall | jarvis/install.go:152-180 | a first install touches the apps only with the images at hand, brings the drive to the channel's release with the first apps, records the build last, and leaves the pending key alone; if feasible it is made, unless a call fails |
| Updates.FirstInstallHasItsImages | jarvis/install.go:165-170 | whatever a first install touches, the images of core, doorway, toolbox and apps and the last nextcloud rung are at hand |
| Updates.Drive.Resume | jarvis/main.go:49-64 | a pending release is looked at only on a drive that has a build; one without a build is installed |
| UpdateRuns.PendingIsNeverLost | jarvis/update.go:31-126 | a named pending release stays, is replaced by a newer task, or is cleared with the drive running the refetched release |
| UpdateRuns.InterruptedUpdateCompletes | jarvis/update.go:31-126 | on a drive with a build, whatever restarts and repeated tasks interrupt an update: the build stays recorded, the release stays pending until the update is complete, the first step that succeeds completes it as one undisturbed update would have, and if the update was possible every restart without a failing call is such a step; a task completes it only on the right core |
| UpdateRuns.OneFaultlessRestartIsEnough | jarvis/main.go:49-64 | an update that was possible when it began is complete, with nothing pending, after any history that holds one restart without a failing call, whatever came before it and whatever restarts follow |
| UpdateRuns.RestartStaysOnItsWay | jarvis/update.go:249-268 | a restart, however it ends, leaves an update that is pending or complete, never in between; without a failing call it completes a possible one |
| UpdateRuns.TaskStaysOnItsWay | jarvis/update.go:84-126 | so does the same release as a task once more, as the update cron does it (`jarvis/update.go:217-229`); without a failing call, and with a core image, it finishes or replaces the core |
| UpdateRuns.ResumedExactlyIfNamedAndInstalled | jarvis/main.go:54-64 | a restart takes a pending release up only if it has a name and the drive a build; where the release can be had and no call fails, if and only if; and then the drive runs the release |
| UpdateRuns.NothingIsResumedWithoutABuild | jarvis/main.go:54-64 | without a build and a channel no number of restarts changes anything |
| UpdateRuns.PushedBeforeTheFirstInstall | jarvis/update.go:128-147 | a manual build with all its images and sums, whose core takes over and which a faultless restart leaves pending, for want of a build |
| UpdateRuns.UpdateFindsItsImages | jarvis/update.go:46-59 | whenever an update touches the apps, the image of every rung the nextcloud upgrade begins is at hand, as long as no later major was recorded than the one detected |
| UpdateRuns.Start | jarvis/main.go:49-64 | starting a process and seeing to its build is the restart step of the results above, whatever memory was lost; if no call fails it takes a release that can be had up exactly if that has a name and there is a build |
| UpdateRuns.Work | jarvis/update.go:84-126 | running a task is the other kind of step |
| Semver.ItoaRoundTrip | homeboot/download.go:172-176 | a 64-bit number written as a tag reads back as itself |
| Semver.ItoaInjective | homeboot/download.go:172-176 | different majors get different tags |
| Semver.MajorOfTag | semver/parse.go:26-40 | a version that spells a positive 64-bit number, alone or before a dot, has that number as its major |
| Semver.NoMajorWithoutDigits | semver/parse.go:26-40 | a major is positive and fits 64 bits, and the text before the first dot is digits, with a plus sign at most |
| Nextclouds.LadderMapIsKeyed | homeapp/nextcloud/nextcloud.go:95-98 | each major of the ladder is found, under its own number |
| Nextclouds.ClimbIsConsecutive | homeapp/nextcloud/nextcloud.go:99-133 | the rungs climbed have the majors cur, cur+1, and so on, up to the first the ladder lacks |
| Nextclouds.Nextcloud.ReadVersion | homeapp/nextcloud/status.go:178-194 | the container's own version, or the default if there is no container or it does not tell |
| Nextclouds.Nextcloud.StartingPoint | homeapp/nextcloud/nextcloud.go:67-93 | the version an upgrade goes by and its major, at least 20; else why there is none, and a reading is only blamed if it failed |
| Nextclouds.Nextcloud.Upgrade | homeapp/nextcloud/nextcloud.go:59-141 | ends on every ladder; the rungs begun are a prefix of the climb from the detected major, which is the container's if that tells, else the hint's, else the record's; on success all of it, consecutive majors up to the first the ladder lacks, with container and hint on the last; the hint names the last completed rung, unless that very write failed; an error says what stopped it |
| Nextclouds.CanStartExactlyFrom20 | homeapp/nextcloud/nextcloud.go:80-93 | a faultless upgrade has a version to go by exactly if what it goes by has a major of at least 20 |
| Nextclouds.Nextcloud.ClimbLadder | homeapp/nextcloud/nextcloud.go:99-133 | the loop itself: rung by rung, storing the hint after each, leaving the container on the last |
| Nextclouds.RerunNeverSkips | homeapp/nextcloud/nextcloud.go:67-133 | a rerun that goes by the hint begins with the very rung the hint names; what was kept and what it runs follow each other without a gap, and are the whole climb once it reaches the top |
| Nextclouds.RerunStartsAtTheLastRung | homeapp/nextcloud/nextcloud.go:87-106 | a rerun from a rung's hint begins with that rung if and only if the rung's label is the major of its version |
| Nextclouds.MislabelledRung | homeapp/nextcloud/nextcloud.go:99-106 | a rung labelled 25 that installs 24: a rerun by its hint climbs nothing |
| Nextclouds.BuildSteps | homerelease/build.go:110-144 | built steps are labelled with the major of their version, in order; a tag without a major stops the build |
| HomeBoot.DownloadConfig.CurrentMajor | homeboot/download_config.go:45-62 | the recorded major, positive exactly if a version is recorded that has one |
| HomeBoot.Downloader.FetchRelease | homeboot/download.go:64-77 | the release given, else the channel's, else the build's; while no call fails it is found exactly if it is there; no build at all is its own error |
| HomeBoot.Downloader.SelectImages | homeboot/download.go:145-178 | the images selected are exactly the core's, the system's and the wanted rungs |
| HomeBoot.Downloader.DownloadImages | homeboot/download.go:101-135 | on success every image with a hash is there and each name points to the last image asked for; nothing is removed and nothing else is added, also on failure; when no call fails it succeeds exactly if each image is there already or can be loaded |
| HomeBoot.Downloader.DownloadRelease | homeboot/download.go:138-184 | on success everything selected is in the image store; when no call fails it succeeds exactly if there is such a release, with artifacts, and each of its images can be had |
| HomeBoot.FetchedHasEveryImage | homeboot/download.go:145-163 | a full download has the six images of the system, and the last rung |
| HomeBoot.CoreAloneIsSelected | homeboot/download.go:145-149 | a download of the core alone selects the core and nothing else |
| HomeBoot.TaggedByTheLast | homeboot/download.go:124-132 | a name and tag, "main" if none, points to the last image asked for under it |
| HomeBoot.WellSummedIsObtainable | homeboot/download.go:83-99 | a release that lists sums for all its images, or none at all, can be downloaded from any state of the image store |
| HomeBoot.DownloadCoversClimb | homeboot/download.go:164-177 | a full download selects every rung of a climb exactly if no later major than the climb's start was recorded (or there is nothing to climb) |
| HomeBoot.GapInTheLadder | homeapp/nextcloud/nextcloud.go:134-136 | a well-labelled ladder on which the climb ends below the recorded target, and the next download leaves out the rung the next climb starts from |
| HomeBoot.UpgradeFindsItsImages | homeboot/download.go:164-177 | after a full download the image of every rung an upgrade begins is in the image store, also if the recorded version is missing or unreadable |
| Tunnel.InvStep | doorway/tunnel_listener.go:43-92 | every step of a worker, a caller or the closer keeps the protocol's invariant |
| Tunnel.MergeIsFaithful | doorway/tunnel_listener.go:43-73 | in every interleaving, connections that a source still yields after it was closed included, what is delivered with a source's tag is a duplicate-free prefix of what that source accepted, short by at most one connection, and by none while the listener is open and its worker is not offering one |
| Tunnel.ErrorEndsASource | doorway/tunnel_listener.go:54-73 | a source reports at most one error and delivers nothing after it |
| Tunnel.PendingConnectionIsDelivered | doorway/tunnel_listener.go:43-70 | what a source has accepted a caller can get in one step, with the source's tag, and then nothing of that source is missing |
| Tunnel.PendingErrorIsDelivered | doorway/tunnel_listener.go:47-63 | so can it get a listener's error |
| Tunnel.LateCallersAreAnswered | doorway/tunnel_listener.go:49-51 | once the channel is closed every caller can be told so |
| Tunnel.FreshConnectionIsDelivered | doorway/tunnel_listener.go:54-73 | while a listener is open and has not failed, any fresh connection of it gets to a caller |
| Tunnel.SourcesMayFailAndCloseMayBegin | doorway/tunnel_listener.go:54-92 | a source that is being accepted from may fail, and `Close` may begin exactly once |
| Tunnel.ClosingCanAlwaysGoOn | doorway/tunnel_listener.go:75-92 | from `Close` on, until it returns, there is a step that needs no caller |
| Tunnel.CloseTerminates | doorway/tunnel_listener.go:75-92 | once the listeners are closed at most eight steps follow in any interleaving, and two for each connection a closed source still yields; where none is left `Close` has returned |
| Tunnel.CloseCanFinishAlone | doorway/tunnel_listener.go:75-92 | from any reachable state of a close a run to its return exists in which nobody calls `acceptTag` |
| Tunnel.OnlyErrorsAfterClose | doorway/tunnel_listener.go:43-52 | after `Close` has returned both workers are gone and every call is answered with an error |
| TlsProxies.TlsProxy.Accept | doorway/tls_proxy.go:102-143 | of the deliveries it used up, the last is the one returned and none before it would have been; each got the fate its hello, tag and name demand |
| TlsProxies.PrivateModeFilter | doorway/tls_proxy.go:69-74 | on a private drive a fabrics connection gets through exactly if it has a hello whose name, less one final dot, is public, or whose name is not empty and whose one protocol is acme-tls/1 (section 3 of RFC 8737) |
| TlsProxies.NoOtherFilter | doorway/tls_proxy.go:109-131 | any other connection gets through exactly if it speaks TLS |
| TlsProxies.ForwardedExactlyIfListed | doorway/tls_proxy.go:133-141 | what gets through is forwarded exactly if its name is listed, to the address listed |
| TlsProxies.TrimDotDropsOneDot | doorway/tls_proxy.go:117 | one final dot is dropped from a name and nothing else |
| TlsProxies.EveryDeliveryIsJudgedOnce | doorway/tls_proxy.go:102-143 | the connections judged with a tag are those delivered with it, in order, each once |
| TlsProxies.EverySourceIsJudgedFaithfully | doorway/tls_proxy.go:102-143 | over every run of the tunnel, and after any number of its deliveries, the connections of a source are judged once each and in the order that source accepted them |
| TlsProxies.LetThroughIsKeptPrivate | doorway/tls_proxy.go:119-131 | over every run of the tunnel, what a private drive lets through is public, a challenge, or was accepted by the local listener |
| TlsProxies.Serve | doorway/doorway.go:145-151 | calling `Accept` until it fails serves exactly the connections whose fate is to be passed on, in order |
| TlsProxies.ServeTunnel | doorway/doorway.go:105-152 | a proxy served over any run of the tunnel judges each source faithfully and, on a private drive, lets nothing else through than the two results above allow |
| Reconnect.InvStep | doorway/reconnect_listener.go:115-168 | every step of the worker, a watcher, a caller or `Close` keeps the listener's invariant |
| Reconnect.AtMostOneOpen | doorway/reconnect_listener.go:115-168 | over any number of redials at most one underlying listener is open at a time |
| Reconnect.DeliveryIsFaithful | doorway/reconnect_listener.go:115-177 | over all redials the connections delivered are those accepted, in order, at most one missing, and that only at the end |
| Reconnect.ReachesTheDial | doorway/reconnect_listener.go:148-168 | from every state without a listener the worker, waiting for nobody outside, comes to dial again |
| Reconnect.RedialsAndDelivers | doorway/reconnect_listener.go:115-168 | and then any fresh listener can bring any fresh connection to a caller, without a close |
| Reconnect.OpenListenerServesOrIsLost | doorway/reconnect_listener.go:130-145 | an accepting worker brings a fresh connection to a caller, or loses its listener |
| Reconnect.WatchersMayGo | doorway/reconnect_listener.go:119-128 | the watcher of a lost listener can go at once, without a close |
| Reconnect.ClosingOnlyWindsDown | doorway/reconnect_listener.go:74-168 | after `Close` every step brings the end nearer |
| Reconnect.CloseReleasesEverything | doorway/reconnect_listener.go:74-168 | after `Close` only boundedly many steps follow, and where no unaided one is left the worker has stopped, the watchers are gone and every listener ever opened is closed |
| Reconnect.AtMostOneLateHandOver | doorway/reconnect_listener.go:140-144 | after `Close` at most one more connection is handed over, whatever follows |
| Reconnect.OneLateHandOverHappens | doorway/reconnect_listener.go:170-177 | a run whose last steps are `Close` and the hand-over of a connection |
| FabricsTunnels.YieldIsAnAccept | doorway/listener.go:77-87 | what the redialing listener hands over never exceeds what the merged one grants a closed source |
| FabricsTunnels.InvStep | doorway/listener.go:77-87 | every joint step of the merged listener and the redialing one under it keeps both invariants and their agreement |
| FabricsTunnels.FabricsArriveFaithfully | doorway/listener.go:77-87 | over any number of redials, closing included, callers of the merged listener get the fabrics connections in the order the dialed listeners accepted them, each once, all but the last two at most |
| FabricsTunnels.FreshConnectionGetsThrough | doorway/listener.go:77-87 | from every reachable open state, whatever the redialing listener is at, a fresh connection gets to a caller of the merged listener in at most 24 steps |
| FabricsTunnels.ClosingCanAlwaysGoOn | doorway/tunnel_listener.go:75-92 | from `Close` on, until nothing is left of either listener, there is a step that waits for no caller and nobody outside |
| FabricsTunnels.CloseBringsEverythingDown | doorway/tunnel_listener.go:75-92 | once both sources are closed only boundedly many joint steps follow; where none can go on by itself, `Close` has returned, all workers and watchers are gone and every listener ever dialed is closed |
| Logins.RecentFailures.Update | jarvis/recent_failures.go:30-39 | keeps exactly the failures younger than the window, in order |
| Logins.RecentFailures.Count | jarvis/recent_failures.go:41-44 | how many failures are younger than the window |
| Logins.RecentFailures.Add | jarvis/recent_failures.go:46-50 | prunes, then adds the new failure |
| Logins.RecentFailures.Clear | jarvis/recent_failures.go:52-54 | forgets all failures |
| Logins.WithinKeepsTheYoung | jarvis/recent_failures.go:30-39 | what is kept are exactly the failures of the last three minutes |
| Logins.HistoryStep | jarvis/users.go:101-122 | the unpruned history: a success empties it, a wrong password adds to it, anything else leaves it |
| Logins.Users.LoginRateLimit | jarvis/users.go:175-187 | turns a user away exactly if five failures are younger than the window; nothing is stored |
| Logins.Users.RecordLoginFailure | jarvis/users.go:189-199 | the one user's record is pruned and grows by this failure |
| Logins.Users.RecordLoginSuccess | jarvis/users.go:201-210 | the one user's failures are forgotten, nothing else |
| Logins.CheckUserPassword | jarvis/user_info.go:36-54 | a password is right exactly if it is the newer hash's, or there is no newer hash and it is the older one's; unusable exactly if there is neither |
| Logins.Users.CheckPassword | jarvis/users.go:101-122 | outcome and new record of a sign-in; only that user's failures change; admitted with the right password only, and called wrong with a wrong one only |
| Logins.PrunedAgreesWithHistory | jarvis/recent_failures.go:30-54 | for any sequence of sign-ins the pruned record and the full history since the last success agree inside the window, and the record never exceeds five |
| Logins.LockedOutExactlyByHistory | jarvis/users.go:175-187 | a user is turned away if and only if the fifth-last failure since the last success is inside the window |
| Logins.SixFailuresSpanTheWindow | jarvis/users.go:101-122 | any six wrong passwords let in in a row, without a success, span at least three minutes |
| Logins.KnockingDoesNotExtendTheLock | jarvis/users.go:101-122 | attempts that are turned away change nothing |
| Logins.LockOpensAgain | jarvis/users.go:101-122 | a window after the last attempt that was not turned away the right password is let in, however often the user knocked in between |
| TaskLoops.InvStep | jarvis/task_loop.go:38-52 | every step of a caller or the worker keeps the queue's invariant |
| TaskLoops.TasksAreSerial | jarvis/task_loop.go:38-52 | one task at a time, each at most once, in the order they entered a queue of at most ten, and none before the boot work is over (`jarvis/main.go:49-80`) |
| TaskLoops.CallersGetTheirOwnResult | jarvis/task_loop.go:38-46 | what `run` returns is what that caller's own task returned, after it ended |
| TaskLoops.LoopNeverSticks | jarvis/task_loop.go:48-52 | while anyone is without an answer, the loop or a sender can move |
| TaskLoops.CallersGetIn | jarvis/task_loop.go:32-46 | anyone may call, and gets into the queue exactly while fewer than ten are in it |
| TaskLoops.EverybodyGetsAnAnswer | jarvis/task_loop.go:38-52 | the worker makes at most three steps for each entry, and when it has none left everyone who entered has the own task's result |
| Quoting.QuoteRoundTrip | burmilla/config.go:99-102 | the shell reads the quoted string back as one word equal to the string if and only if it holds no NUL |
| Quoting.QuotedInParts | burmilla/config.go:99-102 | a string is quoted character by character |
| Quoting.QuotedChar | burmilla/config.go:99-102 | each character stands for itself, but a single quote, which is closed, put in double quotes, and opened again |
| Quoting.QuotedListRoundTrip | burmilla/config.go:99-102 | quoted words with blanks between them read back as the list |

## Left out

- The order of names in `list`, and of anchors handed to `apply`: any enumeration stands for the sorted one, and every result holds for all of them.
- The data effects of each app's `Change`, and its containers, volumes and databases: one abstract call that succeeds or fails. The Nextcloud upgrade alone is modelled further, with one rung as one abstract call.
- The swap of the core container: one step that leaves the old core or the new one. What docker does when it fails half-way is not part of this model.
- System check, the making of a downloader, the endpoint's settings, the report of a first install, domain registration: calls that succeed or fail. A drive that can reach no server and has no manual build, or a docker that is too old, is one where such a call fails each time.
- Which images the cleanup after an update removes: any. The images at hand are those from before it.
- Panics: a release without artifacts is dereferenced by the code; here the download that would do so reports an error of its own.
- Changes of what the release server offers while an update is under way: each name stands for one release. A drive in manual mode answers every name with the build that was pushed last; a push during an update is a new task.
- An empty detected Nextcloud version: here an error of its own. The code annotates an error that is nil at that point; what that yields is up to a library that is not part of this model.
- The choice of a release to move to (channels, manual builds, the update cron), and the migration of the apps state of older versions.
- Passwords, domains and other settings that a first install writes.
- The operating system update, and everything that drives docker, grub or the boot partition.
- The settings database, SQL, tar, HTTP, websocket and TLS: abstract.
- Password hashing, TOTP, sessions, cookies and pages. A stored hash is taken for the password it admits.
- Logins.Users.CheckPassword: calls of one user one after the other, over a store that works; the code only logs it when recording a failure does not succeed.
- The clock of a sign-in is a parameter, taken to run forward; sleeps, timers and log lines are dropped.
- A second caller of `Close` on either listener, who only gets an error, and the address strings of listeners.
- Tunnel.CloseTerminates: a closed source is taken to fail its `Accept` after finitely many late connections, because nothing in the merged listener bounds them; for the fabrics source the bound of one is proved, for a local one it is the standard library's.
- The forwarding of a connection by the TLS proxy after it was handed off, and the end of the forwarders when the proxy closes.
- Quoting: strings are sequences of characters, not bytes; the reader gives up on operators, expansions, patterns and comments, none of which a quoted string contains outside quotes.
- `AppMeta.Version` is a 64-bit number that is only compared; here it is an integer. The tags `Itoa` makes are those of majors, which parsing keeps inside 64 bits.
- Checksums of images, old tags, and image naming prefixes.

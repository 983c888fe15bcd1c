/** What the two settings keys guarantee over histories of tasks, crashes and restarts. */
module UpdateRuns {
  import opened Basics
  import opened DrvApi
  import opened AppRegistries
  import opened AppsPlan
  import opened AppsControl
  import opened AppsRuns
  import opened Nextclouds
  import opened HomeBoot
  import opened Updates

  /**
   A task in the running process, or the start of a new process; a crash is any early end.
   `faulty` says whether a call to the outside failed during the step.
   */
  datatype Step =
    | TaskRun(rel: Release, ending: Ending, faulty: bool)
    | Restart(r: Result<(), UpdateError>, faulty: bool)

  function Rebooted(d: DriveScene): DriveScene {
    d.(apps := Reloaded(d.apps))
  }

  ghost predicate StepTaken(site: Site, s: Step, d0: DriveScene, d1: DriveScene) {
    match s
    case TaskRun(rel, e, faulty) => Task(site, rel, d0, d1, e, faulty)
    case Restart(r, faulty) => Begun(site, Rebooted(d0), d1, r, faulty)
  }

  predicate Succeeds(s: Step) {
    match s
    case TaskRun(_, e, _) => e.Finished?
    case Restart(r, _) => r.Ok?
  }

  /** The drive is on `rel`: the build key says so, and doorway and apps are the ones the release asks for. */
  ghost predicate RunsRelease(rel: Release, d: DriveScene) {
    && d.build == Some(rel) && d.doorway == DoorwayImage(rel)
    && d.apps.mem == d.apps.saved && Installed(ManifestOf(rel), d.apps.saved)
  }

  lemma InPlaceRunsRelease(rel: Release, anchors: set<string>, d0: DriveScene, d1: DriveScene)
    requires InPlace(rel, anchors, d0, d1) && d1.build == Some(rel)
    ensures RunsRelease(rel, d1)
  {
    AppliedIsInstalled(ManifestOf(rel), ReleaseGoal(rel, anchors), d0.apps.mem);
  }

  /**
   A pending release never just disappears.  It stays pending, or a newer task replaces it, or the
   key is cleared, and then the drive already runs the release that was refetched.
   */
  lemma {:induction false} PendingIsNeverLost(site: Site, s: Step, d0: DriveScene, d1: DriveScene)
    requires StepTaken(site, s, d0, d1)
    requires d0.pending.Some? && d0.pending.value.name != ""
    ensures
      || d1.pending == d0.pending
      || (s.TaskRun? && d1.pending == Some(s.rel))
      || (d1.pending == Some(NO_RELEASE) &&
          var name := if s.TaskRun? then s.rel.name else d0.pending.value.name;
          name in site.builds && RunsRelease(site.builds[name], d1))
  {
    var start := if s.TaskRun? then d0.(pending := Some(s.rel)) else Rebooted(d0);
    var name := if s.TaskRun? then s.rel.name else d0.pending.value.name;
    if name in site.builds && MoveDone(site.builds[name], start, d1) {
      InPlaceRunsRelease(site.builds[name], start.apps.mem.anchored, start, d1);
    }
  }

  // ---- One update, however often it is interrupted ---------------------------------------------------

  /** Where an update to the release called `rel.name`, begun at `d`, may be caught. */
  ghost predicate OnItsWay(src: Source, rel: Release, d: DriveScene, x: DriveScene)
    requires rel.name in src
  {
    var to := src[rel.name];
    var q, g := ManifestOf(to), ReleaseGoal(to, d.apps.mem.anchored);
    && OnCourse(q, g, d.apps.mem, x.apps)
    && (|| (x.pending == Some(rel) && (x.build == d.build || x.build == Some(to)))
        || Complete(to, d, x))
  }

  ghost predicate Complete(to: Release, d: DriveScene, x: DriveScene) {
    var goal := Applied(ManifestOf(to), ReleaseGoal(to, d.apps.mem.anchored), d.apps.mem);
    && x.build == Some(to) && x.pending == Some(NO_RELEASE) && x.doorway == DoorwayImage(to)
    && x.apps.mem == x.apps.saved == goal && x.apps.running == goal.metas
  }

  /** The update was possible when it began: the release can be had, the apps can follow, the drive comes up. */
  ghost predicate Achievable(to: Release, d: DriveScene) {
    Feasible(to, d.apps.mem.anchored, d.apps.mem.metas) && d.apps.mem.metas.Keys <= BUILT_IN_APPS
  }

  /** The release as it was handed to the task can be downloaded, and names a core. */
  ghost predicate Pushable(rel: Release) {
    Downloadable(rel) && CoreImage(rel) != ""
  }

  /** What was possible at the start of an update stays possible all along it. */
  lemma StaysPossible(src: Source, rel: Release, d: DriveScene, x: DriveScene)
    requires rel.name in src && OnItsWay(src, rel, d, x) && Achievable(src[rel.name], d)
    ensures Bootable(x)
    ensures x.apps.mem.anchored == d.apps.mem.anchored ==>
              Feasible(src[rel.name], x.apps.mem.anchored, x.apps.mem.metas)
  {
    var to := src[rel.name];
    var q, g := ManifestOf(to), ReleaseGoal(to, d.apps.mem.anchored);
    InterruptedRunHeadsTheSameWay(q, g, d.apps.mem, x.apps.mem);
    forall name | name in x.apps.saved.metas ensures name in BUILT_IN_APPS {
      if name !in g.keep {
        assert Lookup(d.apps.mem.metas, name) == Some(x.apps.saved.metas[name]);
      }
    }
  }

  lemma MoveStaysOnItsWay(src: Source, rel: Release, d: DriveScene, x0: DriveScene, x1: DriveScene,
                          r: Result<(), UpdateError>, faulty: bool)
    requires rel.name in src && OnItsWay(src, rel, d, x0) && x0.pending == Some(rel)
    requires MoveTo(src, rel.name, x0, x1, r, faulty)
    ensures OnItsWay(src, rel, d, x1)
    ensures r.Ok? ==> Complete(src[rel.name], d, x1)
    ensures Achievable(src[rel.name], d) && !faulty ==> r.Ok?
  {
    var to := src[rel.name];
    var q, g := ManifestOf(to), ReleaseGoal(to, d.apps.mem.anchored);
    assert x0.apps.mem.anchored == d.apps.mem.anchored;
    AttemptKeepsCourse(q, g, d.apps.mem, Attempt(x0.apps, x1.apps, false, true, {}));
    InterruptedRunHeadsTheSameWay(q, g, d.apps.mem, x0.apps.mem);
    if Achievable(to, d) {
      StaysPossible(src, rel, d, x0);
    }
  }

  /** A restart picks the update up where it is: on a drive with a build nothing else can happen. */
  lemma RestartStaysOnItsWay(site: Site, rel: Release, d: DriveScene, x0: DriveScene, x1: DriveScene,
                             r: Result<(), UpdateError>, faulty: bool)
    requires rel.name != "" && rel.name in site.builds && d.build.Some? && OnItsWay(site.builds, rel, d, x0)
    requires StepTaken(site, Restart(r, faulty), x0, x1)
    ensures OnItsWay(site.builds, rel, d, x1)
    ensures r.Ok? ==> Complete(site.builds[rel.name], d, x1)
    ensures Achievable(site.builds[rel.name], d) && !faulty ==> r.Ok?
  {
    var to, x := site.builds[rel.name], Rebooted(x0);
    ReloadKeepsCourse(ManifestOf(to), ReleaseGoal(to, d.apps.mem.anchored), d.apps.mem, x0.apps);
    assert OnItsWay(site.builds, rel, d, x);
    if Achievable(to, d) {
      StaysPossible(site.builds, rel, d, x);
    }
    if x.pending == Some(rel) && MoveTo(site.builds, rel.name, x, x1, r, faulty) {
      MoveStaysOnItsWay(site.builds, rel, d, x, x1, r, faulty);
    }
  }

  /** The same release as a task in the running process: the first time, or once more. */
  lemma {:induction false} TaskStaysOnItsWay(site: Site, rel: Release, d: DriveScene, x0: DriveScene, x1: DriveScene,
                                             e: Ending, faulty: bool)
    requires rel.name in site.builds && OnItsWay(site.builds, rel, d, x0.(pending := Some(rel)))
    requires StepTaken(site, TaskRun(rel, e, faulty), x0, x1)
    ensures x1 == x0 || OnItsWay(site.builds, rel, d, x1)
    ensures e.Finished? ==> Complete(site.builds[rel.name], d, x1)
    ensures Achievable(site.builds[rel.name], d) && Pushable(rel) && !faulty ==>
              if RightCore(site, rel, x0) then e.Finished? else e.CoreReplaced?
  {
    var x := x0.(pending := Some(rel));
    match e {
      case CoreReplaced =>
      case Finished =>
        MoveStaysOnItsWay(site.builds, rel, d, x, x1, Ok(()), faulty);
      case Failed(error) =>
        if MoveTo(site.builds, rel.name, x, x1, Err(error), faulty) {
          MoveStaysOnItsWay(site.builds, rel, d, x, x1, Err(error), faulty);
        }
    }
  }

  /** On a drive that looks after its core, a task touches nothing but the core until the core is right. */
  lemma OnlyTheRightCoreMovesOn(site: Site, rel: Release, x0: DriveScene, x1: DriveScene, e: Ending, faulty: bool)
    requires !site.external && rel.artifacts.Some?
    requires StepTaken(site, TaskRun(rel, e, faulty), x0, x1)
    ensures e.Finished? || x1.apps != x0.apps || x1.doorway != x0.doorway || x1.build != x0.build ==>
              x0.core == x1.core == rel.artifacts.value.jarvis
    ensures e.CoreReplaced? ==> x0.core != x1.core == rel.artifacts.value.jarvis
    ensures !e.CoreReplaced? ==> x1.core == x0.core
  {
  }

  /**
   An update begun at `d` on a drive that has a build: the first task got as far as recording the
   release, and then came restarts, and further tasks for the same release, in any order.
   */
  ghost predicate Interrupted(site: Site, rel: Release, d: DriveScene, xs: seq<DriveScene>, es: seq<Step>) {
    && |xs| == |es| + 1 && |es| > 0
    && xs[0] == d && d.build.Some? && CleanStart(d.apps)
    && es[0].TaskRun? && xs[1] != d
    && (forall i :: 0 <= i < |es| && es[i].TaskRun? ==> es[i].rel == rel)
    && forall i, j :: 0 <= i < |es| && j == i + 1 ==> StepTaken(site, es[i], xs[i], xs[j])
  }

  lemma InterruptedStepStaysOnItsWay(site: Site, rel: Release, d: DriveScene, s: Step, x0: DriveScene, x1: DriveScene)
    requires rel.name != "" && rel.name in site.builds && d.build.Some?
    requires OnItsWay(site.builds, rel, d, x0) && StepTaken(site, s, x0, x1) && (s.TaskRun? ==> s.rel == rel)
    ensures OnItsWay(site.builds, rel, d, x1)
    ensures Succeeds(s) ==> Complete(site.builds[rel.name], d, x1)
    ensures Achievable(site.builds[rel.name], d) && !s.faulty && s.Restart? ==> Succeeds(s)
    ensures Achievable(site.builds[rel.name], d) && !s.faulty && s.TaskRun? && Pushable(rel) ==>
              if RightCore(site, rel, x0) then Succeeds(s) else s.ending.CoreReplaced?
  {
    match s
    case TaskRun(_, e, faulty) => TaskStaysOnItsWay(site, rel, d, x0, x1, e, faulty);
    case Restart(r, faulty) => RestartStaysOnItsWay(site, rel, d, x0, x1, r, faulty);
  }

  lemma {:induction false} InterruptedStaysOnItsWay(site: Site, rel: Release, d: DriveScene,
                                                    xs: seq<DriveScene>, es: seq<Step>, i: nat)
    requires rel.name != "" && rel.name in site.builds
    requires Interrupted(site, rel, d, xs, es) && 1 <= i < |xs|
    ensures OnItsWay(site.builds, rel, d, xs[i])
    decreases i
  {
    assert StepTaken(site, es[i - 1], xs[i - 1], xs[i]);
    if i == 1 {
      assert OnItsWay(site.builds, rel, d, d.(pending := Some(rel)));
      TaskStaysOnItsWay(site, rel, d, d, xs[1], es[0].ending, es[0].faulty);
    } else {
      InterruptedStaysOnItsWay(site, rel, d, xs, es, i - 1);
      InterruptedStepStaysOnItsWay(site, rel, d, es[i - 1], xs[i - 1], xs[i]);
    }
  }

  /**
   However an update was cut short: until it is complete the release stays pending; the first step
   that succeeds completes it, with the build, the doorway, and the apps in memory, in the store and
   on the machine as one undisturbed update would have made them; and if it was possible at all, a
   restart during which no call fails is such a step.
   */
  lemma InterruptedUpdateCompletes(site: Site, rel: Release, d: DriveScene,
                                   xs: seq<DriveScene>, es: seq<Step>, i: nat)
    requires rel.name != "" && rel.name in site.builds
    requires Interrupted(site, rel, d, xs, es) && 1 <= i < |es|
    ensures var to := site.builds[rel.name];
      && xs[i].build.Some? && (xs[i].pending == Some(rel) || Complete(to, d, xs[i]))
      && (Succeeds(es[i]) ==> Complete(to, d, xs[i + 1]))
      && (Achievable(to, d) && es[i].Restart? && !es[i].faulty ==> Succeeds(es[i]))
      && (Succeeds(es[i]) && es[i].TaskRun? ==> RightCore(site, rel, xs[i + 1]))
      && (xs[i].core == d.core || xs[i].core == CoreImage(rel))
  {
    InterruptedStaysOnItsWay(site, rel, d, xs, es, i);
    assert StepTaken(site, es[i], xs[i], xs[i + 1]);
    InterruptedStepStaysOnItsWay(site, rel, d, es[i], xs[i], xs[i + 1]);
    CoreOfInterrupted(site, rel, d, xs, es, i);
    CoreOfStep(site, es[i], xs[i], xs[i + 1]);
  }

  // ---- The core an update ends on --------------------------------------------------------------------

  /** Some task among the first `n` steps replaced the core. */
  ghost predicate Replaced(es: seq<Step>, n: nat) {
    exists k :: 0 <= k < n && k < |es| && es[k].TaskRun? && es[k].ending.CoreReplaced?
  }

  /** Only a task moves the core, and only to the image its release names. */
  lemma {:induction false} CoreOfStep(site: Site, s: Step, x0: DriveScene, x1: DriveScene)
    requires StepTaken(site, s, x0, x1)
    ensures if s.TaskRun? && s.ending.CoreReplaced? then x1.core == CoreImage(s.rel) else x1.core == x0.core
  {
  }

  /**
   The core an update has got to: the one its release names exactly if that one ran from the start or
   some task replaced it.  A restart finishes the rest on whatever core it finds.
   */
  lemma {:induction false} CoreOfInterrupted(site: Site, rel: Release, d: DriveScene,
                                             xs: seq<DriveScene>, es: seq<Step>, i: nat)
    requires Interrupted(site, rel, d, xs, es) && i < |xs|
    ensures xs[i].core == if Replaced(es, i) then CoreImage(rel) else d.core
    ensures xs[i].core == CoreImage(rel) <==> d.core == CoreImage(rel) || Replaced(es, i)
    decreases i
  {
    if i > 0 {
      CoreOfInterrupted(site, rel, d, xs, es, i - 1);
      assert StepTaken(site, es[i - 1], xs[i - 1], xs[i]);
      CoreOfStep(site, es[i - 1], xs[i - 1], xs[i]);
      assert Replaced(es, i) <==> Replaced(es, i - 1) || (es[i - 1].TaskRun? && es[i - 1].ending.CoreReplaced?);
    }
  }

  /** A build that only moves the core and the doorway, and a drive without apps that is to get it. */
  function CoreBuild(): Release {
    Release("r2", Some(Artifacts("core:2", "door:2", "", "", "", "", "", [], [], None)), Some([]))
  }

  /**
   The failing input: replacing the core fails, and the machine restarts.  The restart, without a
   fault, completes the update on the old core, and no later one replaces it.
   */
  lemma OldCoreIsKept() returns (site: Site, d: DriveScene, x1: DriveScene, x2: DriveScene)
    ensures !site.external && CoreBuild().name in site.builds && Pushable(CoreBuild())
    ensures StepTaken(site, TaskRun(CoreBuild(), Failed(CoreFailed), true), d, x1)
    ensures StepTaken(site, Restart(Ok(()), false), x1, x2)
    ensures RunsRelease(CoreBuild(), x2) && x2.pending == Some(NO_RELEASE)
    ensures x2.core == "core:1" != CoreImage(CoreBuild())
    ensures forall x3, r, faulty :: StepTaken(site, Restart(r, faulty), x2, x3) ==> x3.core == "core:1"
  {
    var rel := CoreBuild();
    var r1 := Release("r1", Some(Artifacts("core:1", "door:1", "", "", "", "", "", [], [], None)), Some([]));
    site := Site(map[rel.name := rel], map[], "stable", [], false);
    var nothing := Snapshot(map[], {});
    var save := Point(CallSave(None), nothing, nothing, map[], {});
    d := DriveScene(Some(r1), None, "core:1", "door:1", {}, Scene(nothing, nothing, map[], []));
    x1 := d.(pending := Some(rel));
    x2 := DriveScene(Some(rel), Some(NO_RELEASE), "core:1", "door:2", {"core:2", "door:2"},
                     Scene(nothing, nothing, map[], [save]));
    NothingToApply(rel, d.apps, x2.apps, save);
    CoreBuildIsFetched({"core:2", "door:2"});
    assert Moved(rel, x1, x2);
    InPlaceRunsRelease(rel, {}, x1, x2);
  }

  lemma CoreBuildIsFetched(images: set<string>)
    requires "core:2" in images && "door:2" in images
    ensures Fetched(UpdateDownload(CoreBuild(), map[]), CoreBuild().artifacts.value, images)
  {
    var c, arts := UpdateDownload(CoreBuild(), map[]), CoreBuild().artifacts.value;
    forall img | Selected(c, arts, img) && img.hash != "" ensures img.hash in images {
      assert !IsWantedRung(c, arts.nextclouds, img);
    }
  }

  /** With no apps to keep and none installed, all there is to do is to save the anchors. */
  lemma NothingToApply(rel: Release, b: Scene, s: Scene, save: Point)
    requires rel.apps == Some([])
    requires var nothing := Snapshot(map[], {});
      && b == Scene(nothing, nothing, map[], []) && s == Scene(nothing, nothing, map[], [save])
      && save == Point(CallSave(None), nothing, nothing, map[], {})
    ensures Travelled(ManifestOf(rel), ReleaseGoal(rel, {}), b, s)
    ensures Arrived(ManifestOf(rel), ReleaseGoal(rel, {}), b, s)
  {
    var q, g := ManifestOf(rel), ReleaseGoal(rel, {});
    assert q == map[] && g.keep == {};
    assert GoodPoint(q, g, b, save);
    forall x ensures Logged(b, s, x) && RunsAsBefore(q, g, b, s, x) {
    }
  }

  /** If no call failed in some task of it, the update goes on, and ends, on the core its release names. */
  lemma {:induction false} FaultlessTaskSettlesTheCore(site: Site, rel: Release, d: DriveScene,
                                                       xs: seq<DriveScene>, es: seq<Step>, i: nat, j: nat)
    requires rel.name != "" && rel.name in site.builds && !site.external
    requires Achievable(site.builds[rel.name], d) && Pushable(rel)
    requires Interrupted(site, rel, d, xs, es) && i < j < |xs| && es[i].TaskRun? && !es[i].faulty
    ensures xs[j].core == rel.artifacts.value.jarvis
    ensures j == i + 1 ==> Complete(site.builds[rel.name], d, xs[j]) || es[i].ending.CoreReplaced?
  {
    assert StepTaken(site, es[i], xs[i], xs[i + 1]);
    assert OnItsWay(site.builds, rel, d, xs[i].(pending := Some(rel))) by {
      if i > 0 {
        InterruptedStaysOnItsWay(site, rel, d, xs, es, i);
      }
    }
    TaskStaysOnItsWay(site, rel, d, xs[i], xs[i + 1], es[i].ending, false);
    CoreOfInterrupted(site, rel, d, xs, es, i);
    CoreOfInterrupted(site, rel, d, xs, es, j);
    if es[i].ending.CoreReplaced? {
      assert Replaced(es, j);
    } else if Replaced(es, i) {
      var k :| 0 <= k < i && k < |es| && es[k].TaskRun? && es[k].ending.CoreReplaced?;
      assert Replaced(es, j);
    }
  }

  /** Restarts leave a completed update alone, faulty or not. */
  lemma CompleteStays(site: Site, to: Release, d: DriveScene, x0: DriveScene, x1: DriveScene, s: Step)
    requires Complete(to, d, x0) && s.Restart? && StepTaken(site, s, x0, x1)
    ensures Complete(to, d, x1)
  {
  }

  /**
   An update that was possible when it began comes to its end however many faults interrupt it: one
   restart without a fault is enough, whatever happened before it, and whatever restarts follow.
   */
  lemma {:induction false} OneFaultlessRestartIsEnough(site: Site, rel: Release, d: DriveScene,
                                                       xs: seq<DriveScene>, es: seq<Step>, i: nat, j: nat)
    requires rel.name != "" && rel.name in site.builds && Achievable(site.builds[rel.name], d)
    requires Interrupted(site, rel, d, xs, es) && 1 <= i < j < |xs|
    requires !es[i].faulty && forall k :: i <= k < |es| ==> es[k].Restart?
    ensures Complete(site.builds[rel.name], d, xs[j])
    decreases j
  {
    if j == i + 1 {
      InterruptedUpdateCompletes(site, rel, d, xs, es, i);
    } else {
      OneFaultlessRestartIsEnough(site, rel, d, xs, es, i, j - 1);
      CompleteStays(site, site.builds[rel.name], d, xs[j - 1], xs[j], es[j - 1]);
    }
  }

  // ---- Which pending releases are taken up -----------------------------------------------------------

  /**
   A restart takes a pending release up exactly if it has a name and the drive has a build.  The
   condition is necessary whatever fails; and where the release can be had and the apps can follow,
   it is sufficient as long as no call fails.
   */
  lemma ResumedExactlyIfNamedAndInstalled(site: Site, rel: Release, x0: DriveScene, x1: DriveScene,
                                          r: Result<(), UpdateError>, faulty: bool)
    requires x0.pending == Some(rel) && StepTaken(site, Restart(r, faulty), x0, x1)
    ensures x1.pending != Some(rel) ==> rel.name != "" && x0.build.Some?
    ensures !faulty && Bootable(x0) && rel.name in site.builds &&
            Feasible(site.builds[rel.name], x0.apps.saved.anchored, x0.apps.saved.metas) ==>
              (x1.pending != Some(rel) <==> rel.name != "" && x0.build.Some?)
    ensures x1.pending != Some(rel) ==> rel.name in site.builds && RunsRelease(site.builds[rel.name], x1)
  {
    if x1.pending != Some(rel) {
      assert MoveDone(site.builds[rel.name], Rebooted(x0), x1);
      InPlaceRunsRelease(site.builds[rel.name], x0.apps.saved.anchored, Rebooted(x0), x1);
    }
  }

  /** Without a build and without a channel to install from, no number of restarts resumes anything. */
  lemma {:induction false} NothingIsResumedWithoutABuild(site: Site, xs: seq<DriveScene>, es: seq<Step>, i: nat)
    requires |xs| == |es| + 1 && i < |xs|
    requires forall k :: 0 <= k < |es| ==> es[k].Restart?
    requires forall k, l :: 0 <= k < |es| && l == k + 1 ==> StepTaken(site, es[k], xs[k], xs[l])
    requires site.channel == "" && xs[0].build == None
    ensures xs[i] == xs[0] || xs[i] == Rebooted(xs[0])
    decreases i
  {
    if i > 0 {
      NothingIsResumedWithoutABuild(site, xs, es, i - 1);
      assert StepTaken(site, es[i - 1], xs[i - 1], xs[i]);
    }
  }

  /** A build as it is pushed by hand: seven images, and a sum for each. */
  function ManualBuild(): Release {
    var sums := map["core" := "1", "door" := "2", "tool" := "3", "front" := "4",
                    "nc" := "5", "redis" := "6", "pg" := "7"];
    var ladder := [StepVersion(25, "25.0.1", "nc")];
    Release("manual",
            Some(Artifacts("core", "door", "tool", "front", "nc", "redis", "pg", ladder, [], Some(sums))), None)
  }

  lemma ManualBuildIsFine()
    ensures Pushable(ManualBuild()) && Feasible(ManualBuild(), {}, map[])
  {
    var arts := ManualBuild().artifacts.value;
    forall h | h in Hashes(arts) ensures h in arts.imageSums.value {
      if h !in {"core", "door", "tool", "redis", "pg", "front"} {
        var s :| s in arts.nextclouds && s.image == h;
      }
    }
    assert Keep(ManifestOf(ManualBuild()), {}) == {};
  }

  /**
   The failing input: a manual build with a name was pushed to a drive on which nothing was ever
   installed, and the core was replaced.  The release can be had, no call fails, and yet the next
   process leaves it pending.
   */
  lemma PushedBeforeTheFirstInstall() returns (site: Site, d: DriveScene, x: DriveScene)
    ensures d.pending.Some? && d.pending.value.name != "" && d.pending.value.name in site.builds
    ensures Achievable(site.builds[d.pending.value.name], d)
    ensures Pushable(d.pending.value)
    ensures StepTaken(site, TaskRun(d.pending.value, CoreReplaced, false), d.(pending := None, core := "old"), d)
    ensures StepTaken(site, Restart(Err(NoChannel), false), d, x)
    ensures x.pending == d.pending && x.build == None
  {
    var rel := ManualBuild();
    ManualBuildIsFine();
    site := Site(map[rel.name := rel], map[], "", [], false);
    var nothing := Snapshot(map[], {});
    d := DriveScene(None, Some(rel), "core", "", {}, Scene(nothing, nothing, map[], []));
    x := d;
  }

  // ---- An update and its downloads -------------------------------------------------------------------

  /** The ladder that the nextcloud app is upgraded by is the one the release ships. */
  ghost predicate ShipsItsLadder(rel: Release) {
    rel.artifacts.Some? && APP_NEXTCLOUD in ManifestOf(rel) &&
    (rel.apps.Some? ==> ManifestOf(rel)[APP_NEXTCLOUD].steps == rel.artifacts.value.nextclouds)
  }

  /**
   Whenever an update touches the apps at all, the images of every rung a nextcloud upgrade climbs
   are at hand, as long as the recorded version does not claim a later major than the one detected.
   */
  lemma UpdateFindsItsImages(src: Source, name: string, d0: DriveScene, d1: DriveScene,
                             r: Result<(), UpdateError>, faulty: bool,
                             cur: int, hint: Option<string>, p: Progress)
    requires name in src && ShipsItsLadder(src[name])
    requires MoveTo(src, name, d0, d1, r, faulty) && d1.apps != d0.apps
    requires UpdateDownload(src[name], d0.apps.mem.metas).CurrentMajor(APP_NEXTCLOUD) <= cur
    requires Climbed(LadderMap(ManifestOf(src[name])[APP_NEXTCLOUD].steps), cur, hint, p)
    ensures forall s :: s in p.begun && s.image != "" ==> s.image in d1.atHand
  {
    var rel := src[name];
    if rel.apps == None {
      LegacyNextcloudNeedsAnImage(rel);
      LegacyNextcloudHasTheReleaseLadder(rel.name, rel.artifacts.value);
      assert rel == Release(rel.name, Some(rel.artifacts.value), None);
    }
    UpgradeFindsItsImages(UpdateDownload(rel, d0.apps.mem.metas), rel.artifacts.value, d1.atHand, cur, hint, p);
  }

  lemma LegacyNextcloudNeedsAnImage(rel: Release)
    requires rel.apps == None && rel.artifacts.Some? && APP_NEXTCLOUD in ManifestOf(rel)
    ensures rel.artifacts.value.nextcloud != ""
  {
    var all := LegacyCandidates(rel.artifacts.value);
    ManifestIsKeyed(WithImage(all), 0);
    WithImageIsFilter(all, ManifestOf(rel)[APP_NEXTCLOUD]);
  }

  // ---- From the operations to their histories --------------------------------------------------

  /**
   A process starts and sees to its build: the restart step, for whatever memory was lost.  When
   nothing fails, it takes a pending release up exactly if that has a name and there is a build.
   */
  method Start(m: Machine, site: Site, ghost lost: Snapshot)
    returns (drive: Option<Drive>, r: Result<(), UpdateError>, ghost mem: Snapshot)
    modifies m.settings, m.doorway, m.docker, m.outside, m.world
    ensures drive.Some? ==> fresh(drive.value) && drive.value.Valid() && drive.value.m == m
    ensures drive.Some? ==> drive.value.apps.state.Value() == mem
    ensures Bootable(old(m.At(lost))) ==> drive.Some? || m.Faults() > old(m.Faults())
    ensures StepTaken(site, Restart(r, m.Faults() > old(m.Faults())), old(m.At(lost)), m.At(mem))
    ensures
      var x0, x1 := old(m.At(lost)), m.At(mem);
      x0.pending.Some? && x0.pending.value.name in site.builds && Bootable(x0) && m.Faults() == old(m.Faults()) &&
      Feasible(site.builds[x0.pending.value.name], x0.apps.saved.anchored, x0.apps.saved.metas) ==>
        (x1.pending != x0.pending <==> x0.pending.value.name != "" && x0.build.Some?)
  {
    ghost var x0 := m.At(lost);
    ghost var faults := m.Faults();
    var booted := Drive.Boot(m, site);
    mem := m.world.saved;
    if booted.Err? {
      drive, r := None, Err(booted.error);
    } else {
      r := booted.value.Resume();
      drive, mem := Some(booted.value), booted.value.apps.state.Value();
    }
    if x0.pending.Some? {
      ResumedExactlyIfNamedAndInstalled(site, x0.pending.value, x0, m.At(mem), r, m.Faults() > faults);
    }
  }

  /** A task in the running process is the other kind of step. */
  method Work(drive: Drive, rel: Release) returns (e: Ending)
    requires drive.Valid()
    modifies drive.m.settings, drive.m.core, drive.m.doorway, drive.m.docker, drive.m.outside, drive.m.world
    modifies drive.apps`stubs, drive.apps.state, drive.apps.registry
    ensures drive.Valid()
    ensures var faulty := drive.m.Faults() > old(drive.m.Faults());
      StepTaken(drive.site, TaskRun(rel, e, faulty), old(drive.Now()), drive.Now())
  {
    e := drive.RunTask(rel);
  }
}

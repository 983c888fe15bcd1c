/**
 jarvis/update.go and jarvis/install.go: bringing a drive to a release, across failures, crashes and
 restarts.

 Two settings keys make the protocol: the build the drive is on, and the release it is moving to.
*/
module Updates {
  import opened Basics
  import opened DrvApi
  import opened AppRegistries
  import opened AppsPlan
  import opened AppsControl
  import opened HomeBoot

  const BUILT_IN_APPS: set<string> := {APP_REDIS, APP_POSTGRES, APP_NCFRONT, APP_NEXTCLOUD}

  const NO_RELEASE := Release("", None, None)

  datatype UpdateError =
    | Unready                          // a setting, the system check, or the downloader
    | NoChannel
    | NotDownloaded(reason: DownloadError)
    | AppsFailed(cause: ApplyError)
    | Unfinished                       // doorway, cleanup, or one of the settings
    | CoreFailed

  /** How a task ends; when the core is replaced, the process does not live to return. */
  datatype Ending = Finished | Failed(error: UpdateError) | CoreReplaced

  /** What the release server answers: release name to release, and channel to release. */
  type Source = map<string, Release>

  /**
   Where a drive gets its releases, which apps its first install is to anchor, and whether its core is
   looked after by someone else.
   */
  datatype Site = Site(builds: Source, channels: Source, channel: string, firstApps: seq<string>, external: bool)

  /**
   The two keys, the images that core and doorway run, the images that were at hand when the apps were
   last touched, and the apps, as they are at some moment.
   */
  datatype DriveScene = DriveScene(
    build: Option<Release>, pending: Option<Release>, core: string, doorway: string,
    atHand: set<string>, apps: Scene)

  function DoorwayImage(rel: Release): (image: string)
    ensures rel.artifacts.Some? ==> image == rel.artifacts.value.doorway
  {
    match rel.artifacts
    case Some(arts) => arts.doorway
    case None => ""
  }

  function CoreImage(rel: Release): (image: string)
    ensures rel.artifacts.Some? ==> image == rel.artifacts.value.jarvis
  {
    match rel.artifacts
    case Some(arts) => arts.jarvis
    case None => ""
  }

  // ---- What one attempt may do, and when it has to succeed -----------------------------------------

  ghost function ReleaseGoal(rel: Release, anchors: set<string>): Goal {
    GoalOf(ManifestOf(rel), anchors)
  }

  /** The release can be downloaded by whoever has none of its images. */
  ghost predicate Downloadable(rel: Release) {
    rel.artifacts.Some? && WellSummed(rel.artifacts.value)
  }

  /** Bringing the apps to `rel` is possible at all: only a call that fails can still stop it. */
  ghost predicate Feasible(rel: Release, anchors: set<string>, metas: Metas) {
    && Downloadable(rel)
    && Able(ManifestOf(rel), ReleaseGoal(rel, anchors), metas, BUILT_IN_APPS)
  }

  /** What an update downloads: everything, but for the rungs below the recorded version. */
  function UpdateDownload(rel: Release, metas: Metas): DownloadConfig {
    DownloadConfig(Some(rel), "", "", false, false, Some(SemVersionsOf(metas)))
  }

  /** What a first install downloads: the channel's release, with the last rung only. */
  function FirstDownload(site: Site): DownloadConfig {
    DownloadConfig(None, site.channel, "", false, true, None)
  }

  /** The apps, and the images they find, on their way to `rel`; nothing else has moved. */
  ghost predicate AppsMoved(rel: Release, anchors: set<string>, d0: DriveScene, d1: DriveScene, ok: bool) {
    && d1 == d0.(apps := d1.apps, atHand := d1.atHand)
    && Travelled(ManifestOf(rel), ReleaseGoal(rel, anchors), d0.apps, d1.apps)
    && (ok ==> Arrived(ManifestOf(rel), ReleaseGoal(rel, anchors), d0.apps, d1.apps))
  }

  /** The doorway, and only then the build key, and only then the pending key. */
  ghost predicate KeysMoved(rel: Release, d0: DriveScene, d1: DriveScene, ok: bool) {
    && d1 == d0.(build := d1.build, pending := d1.pending, doorway := d1.doorway)
    && (d1.build != d0.build ==> d1.build == Some(rel) && d1.doorway == DoorwayImage(rel))
    && (ok || d1.pending != d0.pending ==>
          d1.pending == Some(NO_RELEASE) && d1.build == Some(rel) && d1.doorway == DoorwayImage(rel))
  }

  /** Apps and doorway are those of `rel`. */
  ghost predicate InPlace(rel: Release, anchors: set<string>, d0: DriveScene, d1: DriveScene) {
    && Arrived(ManifestOf(rel), ReleaseGoal(rel, anchors), d0.apps, d1.apps)
    && d1.doorway == DoorwayImage(rel)
  }

  /** On the way to `rel`: the build key only moves over what is in place. */
  ghost predicate Brought(rel: Release, anchors: set<string>, d0: DriveScene, d1: DriveScene) {
    && d1.core == d0.core
    && Travelled(ManifestOf(rel), ReleaseGoal(rel, anchors), d0.apps, d1.apps)
    && (d1.build == d0.build || (d1.build == Some(rel) && InPlace(rel, anchors, d0, d1)))
  }

  /** One attempt to finish the move to `rel`: first its images are fetched, last the key is cleared. */
  ghost predicate Moved(rel: Release, d0: DriveScene, d1: DriveScene) {
    && Brought(rel, d0.apps.mem.anchored, d0, d1)
    && (d1 == d0 ||
        (rel.artifacts.Some? && Fetched(UpdateDownload(rel, d0.apps.mem.metas), rel.artifacts.value, d1.atHand)))
    && (d1.pending == d0.pending || MoveDone(rel, d0, d1))
  }

  /** Apps first, keys last: together they make a move. */
  lemma AppsThenKeys(rel: Release, d0: DriveScene, d1: DriveScene, d2: DriveScene, ok: bool)
    requires AppsMoved(rel, d0.apps.mem.anchored, d0, d1, true) && KeysMoved(rel, d1, d2, ok)
    requires rel.artifacts.Some? &&
             Fetched(UpdateDownload(rel, d0.apps.mem.metas), rel.artifacts.value, d1.atHand)
    ensures Moved(rel, d0, d2) && (ok ==> MoveDone(rel, d0, d2))
  {
  }

  lemma AppsOnly(rel: Release, d0: DriveScene, d1: DriveScene)
    requires AppsMoved(rel, d0.apps.mem.anchored, d0, d1, false)
    requires rel.artifacts.Some? &&
             Fetched(UpdateDownload(rel, d0.apps.mem.metas), rel.artifacts.value, d1.atHand)
    ensures Moved(rel, d0, d1)
  {
  }

  lemma NotMoved(rel: Release, d: DriveScene)
    ensures Moved(rel, d, d)
  {
    StandingStillIsFine(ManifestOf(rel), ReleaseGoal(rel, d.apps.mem.anchored), d.apps);
  }

  ghost predicate MoveDone(rel: Release, d0: DriveScene, d1: DriveScene) {
    d1.build == Some(rel) && d1.pending == Some(NO_RELEASE) && InPlace(rel, d0.apps.mem.anchored, d0, d1)
  }

  /** `updateAppsAndDoorway` for the release called `name`; `faulty` says whether a call failed. */
  ghost predicate MoveTo(src: Source, name: string, d0: DriveScene, d1: DriveScene,
                         r: Result<(), UpdateError>, faulty: bool) {
    if name !in src then
      d1 == d0 && r.Err?
    else
      && Moved(src[name], d0, d1)
      && (r.Ok? ==> !faulty && MoveDone(src[name], d0, d1))
      && (Feasible(src[name], d0.apps.mem.anchored, d0.apps.mem.metas) && !faulty ==> r.Ok?)
  }

  /** The core that runs is the one the release names, or not this drive's business. */
  predicate RightCore(site: Site, rel: Release, d: DriveScene) {
    site.external || d.core == CoreImage(rel)
  }

  /**
   `taskUpdate.run`: the release is recorded as pending before anything is touched; then the core is
   replaced, unless it is the right one, and only on the right core the rest follows.
   */
  ghost predicate Task(site: Site, rel: Release, d0: DriveScene, d1: DriveScene, e: Ending, faulty: bool) {
    var d := d0.(pending := Some(rel));
    match e
    case Finished => RightCore(site, rel, d0) && MoveTo(site.builds, rel.name, d, d1, Ok(()), faulty)
    case CoreReplaced =>
      !RightCore(site, rel, d0) && CoreImage(rel) != "" && d1 == d.(core := CoreImage(rel)) && !faulty
    case Failed(error) =>
      || (d1 == d0 && (Downloadable(rel) ==> faulty))
      || (d1 == d && (faulty || (!RightCore(site, rel, d0) && CoreImage(rel) == "")))
      || (RightCore(site, rel, d0) && MoveTo(site.builds, rel.name, d, d1, Err(error), faulty))
  }

  /** `downloadAndInstall`: it never looks at the pending key. */
  ghost predicate FirstInstall(site: Site, d0: DriveScene, d1: DriveScene, r: Result<(), UpdateError>, faulty: bool) {
    if site.channel == "" || site.channel !in site.channels then
      d1 == d0 && r.Err?
    else
      var rel, anchors := site.channels[site.channel], d0.apps.mem.anchored + SetOf(site.firstApps);
      && d1.pending == d0.pending
      && Brought(rel, anchors, d0, d1)
      && (d1 == d0 ||
          (rel.artifacts.Some? && Fetched(FirstDownload(site), rel.artifacts.value, d1.atHand)))
      && (r.Ok? ==> !faulty && d1.build == Some(rel) && InPlace(rel, anchors, d0, d1))
      && (Feasible(rel, anchors, d0.apps.mem.metas) && !faulty ==> r.Ok?)
  }

  /** Whatever a first install touches, it has the images of the core, the doorway and the apps, and the last rung. */
  lemma FirstInstallHasItsImages(site: Site, d0: DriveScene, d1: DriveScene, r: Result<(), UpdateError>, faulty: bool)
    requires FirstInstall(site, d0, d1, r, faulty) && d1 != d0
    ensures site.channel in site.channels && site.channels[site.channel].artifacts.Some?
    ensures var arts := site.channels[site.channel].artifacts.value;
      && IsThere(arts.jarvis, d1.atHand) && IsThere(arts.doorway, d1.atHand) && IsThere(arts.toolbox, d1.atHand)
      && IsThere(arts.redis, d1.atHand) && IsThere(arts.postgres, d1.atHand) && IsThere(arts.ncFront, d1.atHand)
      && (arts.nextclouds != [] ==> IsThere(arts.nextclouds[|arts.nextclouds| - 1].image, d1.atHand))
  {
    FetchedHasEveryImage(FirstDownload(site), site.channels[site.channel].artifacts.value, d1.atHand);
  }

  /** Every app on record is one the maker knows, so a process comes up. */
  predicate Bootable(d: DriveScene) {
    d.apps.saved.metas.Keys <= BUILT_IN_APPS
  }

  /** `maybeFinishUpdate`: exactly a pending release with a name is taken up. */
  ghost predicate TakenUp(src: Source, d0: DriveScene, d1: DriveScene, r: Result<(), UpdateError>, faulty: bool) {
    if d0.pending.Some? && d0.pending.value.name != "" then
      MoveTo(src, d0.pending.value.name, d0, d1, r, faulty)
    else
      d1 == d0 && r.Ok? && !faulty
  }

  /**
   What a fresh process does: it finishes a pending release, but only on a drive that has a build;
   without one it installs.
   */
  ghost predicate Resumed(site: Site, d0: DriveScene, d1: DriveScene, r: Result<(), UpdateError>, faulty: bool) {
    match d0.build
    case None => FirstInstall(site, d0, d1, r, faulty)
    case Some(_) => TakenUp(site.builds, d0, d1, r, faulty)
  }

  /** It may also not get that far, but then a call has failed or it cannot even come up. */
  ghost predicate Begun(site: Site, d0: DriveScene, d1: DriveScene, r: Result<(), UpdateError>, faulty: bool) {
    || (d1 == d0 && r.Err? && (Bootable(d0) ==> faulty))
    || (Bootable(d0) && Resumed(site, d0, d1, r, faulty))
  }

  // ---- The parts of a drive that outlive a process ---------------------------------------------------

  /** The settings table.  A failed write may or may not have happened. */
  class Settings {
    var build: Option<Release>
    var pending: Option<Release>
    ghost var faults: nat

    constructor ()
      ensures build == None && pending == None && faults == 0
    {
      build, pending, faults := None, None, 0;
    }

    method SetBuild(r: Release) returns (ok: bool)
      modifies `build, `faults
      ensures build == old(build) || build == Some(r)
      ensures ok ==> build == Some(r)
      ensures faults == old(faults) + Fault(ok)
    {
      ok := *;
      var reached: bool := *;
      if ok || reached {
        build := Some(r);
      }
      faults := faults + Fault(ok);
    }

    method SetPending(r: Release) returns (ok: bool)
      modifies `pending, `faults
      ensures pending == old(pending) || pending == Some(r)
      ensures ok ==> pending == Some(r)
      ensures faults == old(faults) + Fault(ok)
    {
      ok := *;
      var reached: bool := *;
      if ok || reached {
        pending := Some(r);
      }
      faults := faults + Fault(ok);
    }

    /** Whether a key can be read at the moment. */
    method Readable() returns (ok: bool)
      modifies `faults
      ensures faults == old(faults) + Fault(ok)
    {
      ok := *;
      faults := faults + Fault(ok);
    }
  }

  class Doorway {
    var image: string
    ghost var faults: nat

    constructor (image: string)
      ensures this.image == image && faults == 0
    {
      this.image, faults := image, 0;
    }

    /** Installs or swaps the container; when that fails there is no telling what runs. */
    method Update(image: string) returns (ok: bool)
      modifies this
      ensures ok ==> this.image == image
      ensures faults == old(faults) + Fault(ok)
    {
      ok := *;
      var left: string := *;
      this.image := if ok then image else left;
      faults := faults + Fault(ok);
    }
  }

  /** The container the process itself runs in.  A replacement that fails leaves the old one running. */
  class Core {
    var image: string
    ghost var faults: nat

    constructor (image: string)
      ensures this.image == image && faults == 0
    {
      this.image, faults := image, 0;
    }

    method Inspect() returns (r: Option<string>)
      modifies `faults
      ensures r.Some? ==> r.value == image
      ensures faults == old(faults) + Fault(r.Some?)
    {
      var ok: bool := *;
      faults := faults + Fault(ok);
      return if ok then Some(image) else None;
    }

    method ReplaceBy(image: string) returns (ok: bool)
      modifies this
      ensures this.image == if ok then image else old(this.image)
      ensures faults == old(faults) + Fault(ok)
    {
      ok := *;
      if ok {
        this.image := image;
      }
      faults := faults + Fault(ok);
    }
  }

  datatype Machine = Machine(
    settings: Settings, core: Core, doorway: Doorway, world: World, docker: Docker, outside: Outside)
  {
    ghost function Faults(): nat
      reads settings, core, doorway, world, docker, outside
    {
      settings.faults + core.faults + doorway.faults + world.faults + docker.faults + outside.faults
    }

    /** The drive as a process with `mem` in its memory sees it. */
    ghost function At(mem: Snapshot): DriveScene
      reads settings, core, doorway, world, docker
    {
      DriveScene(settings.build, settings.pending, core.image, doorway.image, docker.atHand,
                 Scene(mem, world.saved, world.running, world.points))
    }
  }

  datatype CoreOutcome = SameImage | CoreError | Swapped

  // ---- A running process ------------------------------------------------------------------------------

  class Drive {
    const m: Machine
    const apps: Apps
    const site: Site

    ghost predicate Valid()
      reads this, apps, apps.state, apps.registry
    {
      apps.Valid() && apps.maker == Some(BUILT_IN_APPS) && apps.world == m.world
    }

    ghost function Now(): DriveScene
      reads m.settings, m.core, m.doorway, m.world, m.docker, apps.state
    {
      m.At(apps.state.Value())
    }

    constructor (m: Machine, apps: Apps, site: Site)
      requires apps.Valid() && apps.maker == Some(BUILT_IN_APPS) && apps.world == m.world
      ensures Valid()
      ensures this.m == m && this.apps == apps && this.site == site
    {
      this.m, this.apps, this.site := m, apps, site;
    }

    /** A process starts: the registry serves the current build, the apps come from the store. */
    static method Boot(m: Machine, site: Site) returns (r: Result<Drive, UpdateError>)
      modifies m.settings`faults, m.world`faults
      ensures r.Ok? <==>
                && m.world.saved.metas.Keys <= {"redis", "postgres", "ncfront", "nextcloud"}
                && m.Faults() == old(m.Faults())
      ensures m.Faults() >= old(m.Faults())
      ensures r.Ok? ==> fresh(r.value) && fresh(r.value.apps) && fresh(r.value.apps.state)
      ensures r.Ok? ==> fresh(r.value.apps.registry)
      ensures r.Ok? ==> r.value.Valid() && r.value.m == m && r.value.site == site
      ensures r.Ok? ==> r.value.Now() == m.At(m.world.saved)
      ensures r.Ok? ==> r.value.apps.registry.manifest ==
                          ManifestOf(match m.settings.build { case Some(b) => b case None => NO_RELEASE })
    {
      var read := m.settings.Readable();
      if !read {
        return Err(Unready);
      }
      var rel := match m.settings.build { case Some(b) => b case None => NO_RELEASE };
      var registry := new AppRegistry(rel);
      var apps := Apps.Open(m.world, registry);
      if apps.Err? {
        return Err(AppsFailed(apps.error));
      }
      var made := apps.value.SetMaker(BUILT_IN_APPS);
      if made.Err? {
        return Err(AppsFailed(made.error));
      }
      var drive := new Drive(m, apps.value, site);
      return Ok(drive);
    }

    /** Asks for the downloader, which is set up anew each time. */
    method MakeDownloader() returns (r: Option<Downloader>)
      modifies m.outside
      ensures m.outside.faults == old(m.outside.faults) + Fault(r.Some?)
      ensures r.Some? ==> r.value.docker == m.docker && r.value.server == m.outside
      ensures r.Some? ==> r.value.builds == site.builds && r.value.channels == site.channels
    {
      var ok := m.outside.Call();
      if !ok {
        return None;
      }
      var dl := new Downloader(m.docker, m.outside, site.builds, site.channels);
      return Some(dl);
    }

    /** Refetches the release called `name`, whole and by the core that runs now, with its images. */
    method Prepare(name: string) returns (r: Result<Release, UpdateError>)
      modifies m.docker`images, m.docker`tags, m.docker`faults, m.outside
      ensures m.Faults() >= old(m.Faults()) && (r.Ok? ==> m.Faults() == old(m.Faults()))
      ensures r.Ok? ==> name in site.builds && r.value == site.builds[name] && r.value.artifacts.Some?
      ensures r.Ok? ==> Fetched(UpdateDownload(r.value, apps.state.metas), r.value.artifacts.value, m.docker.images)
      ensures name in site.builds && Downloadable(site.builds[name]) && m.Faults() == old(m.Faults()) ==> r.Ok?
    {
      var dl := MakeDownloader();
      if dl == None {
        return Err(Unready);
      }
      var fetched := dl.value.FetchBuild(name);
      if fetched.Err? {
        return Err(NotDownloaded(fetched.error));
      }
      var done := Download(dl.value, fetched.value);
      return match done { case Ok(_) => Ok(fetched.value) case Err(e) => Err(e) };
    }

    /** Downloads a release at hand, with the recorded versions. */
    method Download(dl: Downloader, rel: Release) returns (r: Result<(), UpdateError>)
      requires dl.docker == m.docker && dl.server == m.outside
      modifies m.docker`images, m.docker`tags, m.docker`faults, m.outside
      ensures m.Faults() >= old(m.Faults()) && (r.Ok? ==> m.Faults() == old(m.Faults()))
      ensures r.Ok? ==> rel.artifacts.Some?
      ensures r.Ok? ==> Fetched(UpdateDownload(rel, apps.state.metas), rel.artifacts.value, m.docker.images)
      ensures Downloadable(rel) && m.Faults() == old(m.Faults()) ==> r.Ok?
    {
      var versions := apps.state.SemVersions();
      var c := DownloadConfig(Some(rel), "", "", false, false, Some(versions));
      var done := dl.DownloadRelease(c);
      if Downloadable(rel) {
        WellSummedIsObtainable(c, rel.artifacts.value, old(m.docker.images));
      }
      return match done { case Ok(_) => Ok(()) case Err(e) => Err(NotDownloaded(e)) };
    }

    /** The apps, with the registry serving `rel`. */
    method BringUpApps(rel: Release) returns (r: Result<(), UpdateError>)
      requires Valid()
      modifies m.docker`atHand, apps`stubs, apps.state, m.world, apps.registry
      ensures Valid()
      ensures m.Faults() >= old(m.Faults()) && (r.Ok? ==> m.Faults() == old(m.Faults()))
      ensures m.docker.atHand == m.docker.images
      ensures AppsMoved(rel, old(apps.state.anchored), old(Now()), Now(), r.Ok?)
      ensures Able(ManifestOf(rel), ReleaseGoal(rel, old(apps.state.anchored)), old(apps.state.metas),
                   BUILT_IN_APPS) ==>
                r.Ok? || m.Faults() > old(m.Faults())
    {
      m.docker.atHand := m.docker.images;
      apps.registry.SetRelease(rel);
      var updated := apps.Update();
      return match updated { case Ok(_) => Ok(()) case Err(e) => Err(AppsFailed(e)) };
    }

    /** Doorway and cleanup, and only then the keys. */
    method Settle(rel: Release) returns (r: Result<(), UpdateError>)
      requires Valid()
      modifies m.settings, m.doorway, m.docker`images, m.docker`faults
      ensures Valid()
      ensures KeysMoved(rel, old(Now()), Now(), r.Ok?)
      ensures m.Faults() == old(m.Faults()) + Fault(r.Ok?)
    {
      var done := m.doorway.Update(DoorwayImage(rel));
      if !done {
        return Err(Unfinished);
      }
      done := m.docker.CleanUp();
      if !done {
        return Err(Unfinished);
      }
      done := m.settings.SetBuild(rel);
      if !done {
        return Err(Unfinished);
      }
      done := m.settings.SetPending(NO_RELEASE);
      return if done then Ok(()) else Err(Unfinished);
    }

    method UpdateAppsAndDoorway(name: string) returns (r: Result<(), UpdateError>)
      requires Valid()
      modifies m.settings, m.doorway, m.docker, m.outside, m.world, apps`stubs, apps.state, apps.registry
      ensures Valid()
      ensures m.Faults() >= old(m.Faults())
      ensures MoveTo(site.builds, name, old(Now()), Now(), r, m.Faults() > old(m.Faults()))
    {
      ghost var d0 := Now();
      var prepared := Prepare(name);
      assert Now() == d0;
      if prepared.Err? {
        if name in site.builds {
          NotMoved(site.builds[name], d0);
        }
        return Err(prepared.error);
      }
      var rel := prepared.value;
      r := BringUpApps(rel);
      ghost var d1 := Now();
      if r.Err? {
        AppsOnly(rel, d0, d1);
        return;
      }
      r := Settle(rel);
      AppsThenKeys(rel, d0, d1, Now(), r.Ok?);
    }

    /** The core is left alone exactly if it runs the image already; none is started without an image. */
    method UpdateCore(image: string) returns (c: CoreOutcome)
      modifies m.core
      ensures c == SameImage ==> old(m.core.image) == image
      ensures c == Swapped ==> old(m.core.image) != image && image != ""
      ensures m.core.image == if c == Swapped then image else old(m.core.image)
      ensures m.core.faults >= old(m.core.faults)
      ensures c != CoreError ==> m.core.faults == old(m.core.faults)
      ensures c == CoreError && m.core.faults == old(m.core.faults) ==> image == "" != old(m.core.image)
    {
      var running := m.core.Inspect();
      if running == None {
        return CoreError;
      }
      if running.value == image {
        return SameImage;
      }
      if image == "" {
        return CoreError;
      }
      var started := m.core.ReplaceBy(image);
      return if started then Swapped else CoreError;
    }

    /** Downloads the release as it was handed over, and records it as pending. */
    method Announce(rel: Release) returns (r: Result<(), UpdateError>)
      requires Valid()
      modifies m.settings, m.docker`images, m.docker`tags, m.docker`faults, m.outside
      ensures Valid()
      ensures m.Faults() >= old(m.Faults()) && (r.Ok? ==> m.Faults() == old(m.Faults()))
      ensures r.Ok? ==> Now() == old(Now()).(pending := Some(rel))
      ensures r.Ok? ==> rel.artifacts.Some?
      ensures r.Ok? ==> Fetched(UpdateDownload(rel, apps.state.metas), rel.artifacts.value, m.docker.images)
      ensures r.Err? ==> Now() == old(Now()) || Now() == old(Now()).(pending := Some(rel))
      ensures r.Err? ==> m.Faults() > old(m.Faults()) || (Now() == old(Now()) && !Downloadable(rel))
    {
      var ready := m.outside.Call();                // the system check
      if !ready {
        return Err(Unready);
      }
      var dl := MakeDownloader();
      if dl == None {
        return Err(Unready);
      }
      var fetched := Download(dl.value, rel);
      if fetched.Err? {
        return Err(fetched.error);
      }
      var recorded := m.settings.SetPending(rel);
      return if recorded then Ok(()) else Err(Unfinished);
    }

    method RunTask(rel: Release) returns (e: Ending)
      requires Valid()
      modifies m.settings, m.core, m.doorway, m.docker, m.outside, m.world, apps`stubs, apps.state, apps.registry
      ensures Valid()
      ensures m.Faults() >= old(m.Faults())
      ensures Task(site, rel, old(Now()), Now(), e, m.Faults() > old(m.Faults()))
      ensures e.CoreReplaced? ==> rel.artifacts.Some? && rel.artifacts.value.jarvis in m.docker.images
    {
      var announced := Announce(rel);
      if announced.Err? {
        return Failed(announced.error);
      }
      if !site.external {
        var core := UpdateCore(CoreImage(rel));
        match core {
          case Swapped =>
            CoreIsFetched(UpdateDownload(rel, apps.state.metas), rel.artifacts.value, m.docker.images);
            return CoreReplaced;
          case CoreError => return Failed(CoreFailed);
          case SameImage =>
        }
      }
      var r := UpdateAppsAndDoorway(rel.name);
      return match r { case Ok(_) => Finished case Err(x) => Failed(x) };
    }

    /** Takes up a pending release that has a name; called on a drive that has a build. */
    method MaybeFinishUpdate() returns (r: Result<(), UpdateError>)
      requires Valid()
      modifies m.settings, m.doorway, m.docker, m.outside, m.world, apps`stubs, apps.state, apps.registry
      ensures Valid()
      ensures m.Faults() >= old(m.Faults())
      ensures
        var d0, faulty := old(Now()), m.Faults() > old(m.Faults());
        || (r.Err? && Now() == d0 && faulty)
        || TakenUp(site.builds, d0, Now(), r, faulty)
    {
      var read := m.settings.Readable();
      if !read {
        return Err(Unready);
      }
      if m.settings.pending == None || m.settings.pending.value.name == "" {
        return Ok(());
      }
      var ready := m.outside.Call();                // the system check
      if !ready {
        return Err(Unready);
      }
      r := UpdateAppsAndDoorway(m.settings.pending.value.name);
    }

    /** The channel's release and its latest images, for a first install. */
    method PrepareInstall() returns (r: Result<Release, UpdateError>)
      modifies m.docker`images, m.docker`tags, m.docker`faults, m.outside
      ensures m.Faults() >= old(m.Faults()) && (r.Ok? ==> m.Faults() == old(m.Faults()))
      ensures r.Ok? ==> site.channel != "" && site.channel in site.channels && r.value == site.channels[site.channel]
      ensures r.Ok? ==> r.value.artifacts.Some?
      ensures r.Ok? ==> Fetched(FirstDownload(site), r.value.artifacts.value, m.docker.images)
      ensures site.channel != "" && site.channel in site.channels && Downloadable(site.channels[site.channel]) ==>
                r.Ok? || m.Faults() > old(m.Faults())
    {
      if site.channel == "" {
        return Err(NoChannel);
      }
      var ready := m.outside.Call();                // the system check
      if !ready {
        return Err(Unready);
      }
      var dl := MakeDownloader();
      if dl == None {
        return Err(Unready);
      }
      var c := DownloadConfig(None, site.channel, "", false, true, None);
      if site.channel in site.channels && Downloadable(site.channels[site.channel]) {
        WellSummedIsObtainable(c, site.channels[site.channel].artifacts.value, m.docker.images);
      }
      var done := dl.value.DownloadRelease(c);
      return match done { case Ok(rel) => Ok(rel) case Err(e) => Err(NotDownloaded(e)) };
    }

    /** The first apps, with the registry serving `rel`. */
    method InstallApps(rel: Release) returns (r: Result<(), UpdateError>)
      requires Valid()
      modifies m.docker`atHand, apps`stubs, apps.state, m.world, apps.registry
      ensures Valid()
      ensures m.Faults() >= old(m.Faults()) && (r.Ok? ==> m.Faults() == old(m.Faults()))
      ensures m.docker.atHand == m.docker.images
      ensures
        var anchors := old(apps.state.anchored) + SetOf(site.firstApps);
        && AppsMoved(rel, anchors, old(Now()), Now(), r.Ok?)
        && (Able(ManifestOf(rel), ReleaseGoal(rel, anchors), old(apps.state.metas), BUILT_IN_APPS) ==>
              r.Ok? || m.Faults() > old(m.Faults()))
    {
      m.docker.atHand := m.docker.images;
      apps.registry.SetRelease(rel);
      var installed := apps.Install(site.firstApps);
      return match installed { case Ok(_) => Ok(()) case Err(e) => Err(AppsFailed(e)) };
    }

    /** Apps and doorway of a first install, and the build key last. */
    method InstallRelease(rel: Release) returns (r: Result<(), UpdateError>)
      requires Valid()
      modifies m.settings, m.doorway, m.docker`atHand, m.outside, m.world, apps`stubs, apps.state, apps.registry
      ensures Valid()
      ensures m.Faults() >= old(m.Faults()) && (r.Ok? ==> m.Faults() == old(m.Faults()))
      ensures Now() == old(Now()) || m.docker.atHand == m.docker.images
      ensures
        var anchors := old(apps.state.anchored) + SetOf(site.firstApps);
        && Brought(rel, anchors, old(Now()), Now()) && Now().pending == old(Now()).pending
        && (r.Ok? ==> Now().build == Some(rel) && InPlace(rel, anchors, old(Now()), Now()))
        && (Feasible(rel, anchors, old(apps.state.metas)) ==> r.Ok? || m.Faults() > old(m.Faults()))
    {
      StandingStillIsFine(ManifestOf(rel), ReleaseGoal(rel, apps.state.anchored + SetOf(site.firstApps)), apps.Now());
      var done := m.outside.Call();                 // the endpoint's settings
      if !done {
        return Err(Unfinished);
      }
      r := InstallApps(rel);
      if r.Err? {
        return;
      }
      done := m.doorway.Update(DoorwayImage(rel));
      if !done {
        return Err(Unfinished);
      }
      done := m.outside.Call();                     // the report to the server
      if !done {
        return Err(Unfinished);
      }
      done := m.settings.SetBuild(rel);
      return if done then Ok(()) else Err(Unfinished);
    }

    method DownloadAndInstall() returns (r: Result<(), UpdateError>)
      requires Valid()
      modifies m.settings, m.doorway, m.docker, m.outside, m.world, apps`stubs, apps.state, apps.registry
      ensures Valid()
      ensures m.Faults() >= old(m.Faults())
      ensures FirstInstall(site, old(Now()), Now(), r, m.Faults() > old(m.Faults()))
    {
      ghost var anchors := apps.state.anchored + SetOf(site.firstApps);
      if site.channel != "" && site.channel in site.channels {
        var rel := site.channels[site.channel];
        StandingStillIsFine(ManifestOf(rel), ReleaseGoal(rel, anchors), apps.Now());
      }
      var prepared := PrepareInstall();
      if prepared.Err? {
        return Err(prepared.error);
      }
      r := InstallRelease(prepared.value);
    }

    /** What the process does about its build before it takes on tasks. */
    method Resume() returns (r: Result<(), UpdateError>)
      requires Valid()
      modifies m.settings, m.doorway, m.docker, m.outside, m.world, apps`stubs, apps.state, apps.registry
      ensures Valid()
      ensures m.Faults() >= old(m.Faults())
      ensures
        || (r.Err? && Now() == old(Now()) && m.Faults() > old(m.Faults()))
        || Resumed(site, old(Now()), Now(), r, m.Faults() > old(m.Faults()))
    {
      var read := m.settings.Readable();
      if !read {
        return Err(Unready);
      }
      if m.settings.build == None {
        r := DownloadAndInstall();
      } else {
        r := MaybeFinishUpdate();
      }
    }
  }
}

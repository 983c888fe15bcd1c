/** homeboot/download.go and homeboot/download_config.go: fetching the images of a release. */
module HomeBoot {
  import opened Basics
  import opened DrvApi
  import opened AppRegistries
  import opened Semver
  import opened Nextclouds

  datatype DownloadConfig = DownloadConfig(
    release: Option<Release>,
    channel: string,
    build: string,
    coreOnly: bool,
    latestOnly: bool,
    currentSemVersions: Option<map<string, string>>)
  {
    /** 0 when the version is not recorded or cannot be read. */
    function CurrentMajor(app: string): (major: int)
      ensures major >= 0
      ensures major > 0 <==> currentSemVersions.Some? && app in currentSemVersions.value &&
                             Major(currentSemVersions.value[app]) == Some(major)
    {
      match currentSemVersions
      case None => 0
      case Some(versions) =>
        if app !in versions || versions[app] == "" then 0
        else match Major(versions[app])
             case Some(n) => n
             case None => 0
    }
  }

  datatype DownloadImage = DownloadImage(name: string, tag: string, hash: string)

  function RungImage(s: StepVersion): DownloadImage {
    DownloadImage(APP_NEXTCLOUD, Itoa(s.major), s.image)
  }

  /** Whether the rung at index `i` of `n` is fetched. */
  predicate Wanted(latestOnly: bool, major: int, i: nat, n: nat, s: StepVersion) {
    (latestOnly ==> i == n - 1) && (major > 0 ==> s.major >= major)
  }

  function CoreImages(arts: Artifacts): seq<DownloadImage> {
    [DownloadImage("jarvis", "", arts.jarvis)]
  }

  function SystemImages(arts: Artifacts): seq<DownloadImage> {
    [ DownloadImage("doorway", "", arts.doorway), DownloadImage("toolbox", "", arts.toolbox),
      DownloadImage(APP_REDIS, "", arts.redis), DownloadImage(APP_POSTGRES, "", arts.postgres),
      DownloadImage(APP_NCFRONT, "", arts.ncFront) ]
  }

  /** The images a download is about. */
  ghost predicate Selected(c: DownloadConfig, arts: Artifacts, img: DownloadImage) {
    img in CoreImages(arts) ||
    (!c.coreOnly && (img in SystemImages(arts) || IsWantedRung(c, arts.nextclouds, img)))
  }

  /** The image is there already, or can be loaded: without a list of sums any image can. */
  predicate Available(img: DownloadImage, sums: Option<map<string, string>>, images: set<string>) {
    img.hash in images || sums == None || img.hash in sums.value
  }

  ghost predicate Obtainable(c: DownloadConfig, arts: Artifacts, images: set<string>) {
    forall img :: Selected(c, arts, img) && img.hash != "" ==> Available(img, arts.imageSums, images)
  }

  /** The release lists a sum for every image it names, or none at all. */
  ghost predicate WellSummed(arts: Artifacts) {
    arts.imageSums.Some? ==>
      forall h :: h in Hashes(arts) && h != "" ==> h in arts.imageSums.value
  }

  ghost function Hashes(arts: Artifacts): set<string> {
    {arts.jarvis, arts.doorway, arts.toolbox, arts.redis, arts.postgres, arts.ncFront} +
    set s | s in arts.nextclouds :: s.image
  }

  ghost predicate IsThere(image: string, images: set<string>) {
    image != "" ==> image in images
  }

  /** Whatever else it asks for, a full download has the six images of the system and the last rung. */
  lemma FetchedHasEveryImage(c: DownloadConfig, arts: Artifacts, images: set<string>)
    requires Fetched(c, arts, images) && !c.coreOnly && c.CurrentMajor("nextcloud") == 0
    ensures IsThere(arts.jarvis, images) && IsThere(arts.doorway, images) && IsThere(arts.toolbox, images)
    ensures IsThere(arts.redis, images) && IsThere(arts.postgres, images) && IsThere(arts.ncFront, images)
    ensures arts.nextclouds != [] ==> IsThere(arts.nextclouds[|arts.nextclouds| - 1].image, images)
  {
    SystemIsSelected(c, arts);
    if |arts.nextclouds| > 0 {
      var k := |arts.nextclouds| - 1;
      assert WantedBefore(c, arts.nextclouds, k + 1, RungImage(arts.nextclouds[k]));
      assert Selected(c, arts, RungImage(arts.nextclouds[k]));
    }
  }

  lemma CoreIsFetched(c: DownloadConfig, arts: Artifacts, images: set<string>)
    requires Fetched(c, arts, images)
    ensures IsThere(arts.jarvis, images)
  {
    assert CoreImages(arts)[0] in CoreImages(arts);
    assert Selected(c, arts, DownloadImage("jarvis", "", arts.jarvis));
  }

  lemma SystemIsSelected(c: DownloadConfig, arts: Artifacts)
    requires !c.coreOnly
    ensures Selected(c, arts, DownloadImage("jarvis", "", arts.jarvis))
    ensures Selected(c, arts, DownloadImage("doorway", "", arts.doorway))
    ensures Selected(c, arts, DownloadImage("toolbox", "", arts.toolbox))
    ensures Selected(c, arts, DownloadImage("redis", "", arts.redis))
    ensures Selected(c, arts, DownloadImage("postgres", "", arts.postgres))
    ensures Selected(c, arts, DownloadImage("ncfront", "", arts.ncFront))
  {
    assert CoreImages(arts)[0] in CoreImages(arts);
    var system := SystemImages(arts);
    assert forall i :: 0 <= i < 5 ==> system[i] in system;
  }

  /** A download of the core alone selects nothing else. */
  lemma CoreAloneIsSelected(c: DownloadConfig, arts: Artifacts, img: DownloadImage)
    requires c.coreOnly
    ensures Selected(c, arts, img) <==> img == DownloadImage("jarvis", "", arts.jarvis)
  {
  }

  lemma WellSummedIsObtainable(c: DownloadConfig, arts: Artifacts, images: set<string>)
    requires WellSummed(arts)
    ensures Obtainable(c, arts, images)
  {
    forall img | Selected(c, arts, img) ensures img.hash in Hashes(arts) {
      if img !in CoreImages(arts) + SystemImages(arts) {
        var i :| 0 <= i < |arts.nextclouds| && img == RungImage(arts.nextclouds[i]);
        assert arts.nextclouds[i] in arts.nextclouds;
      }
    }
  }

  /** The local image store: what is there, and what the names point to. */
  class Docker {
    var images: set<string>
    var tags: map<(string, string), string>
    ghost var atHand: set<string>    // what was there when the apps were last touched
    ghost var faults: nat            // how many calls have failed

    constructor ()
      ensures images == {} && tags == map[] && atHand == {} && faults == 0
    {
      images, tags, atHand, faults := {}, map[], {}, 0;
    }

    method Call() returns (ok: bool)
      modifies `faults
      ensures faults == old(faults) + Fault(ok)
    {
      ok := *;
      faults := faults + Fault(ok);
    }

    /** Removes images; which ones is left open. */
    method CleanUp() returns (ok: bool)
      modifies `images, `faults
      ensures images <= old(images)
      ensures faults == old(faults) + Fault(ok)
    {
      var kept: set<string> := *;
      images := images * kept;
      ok := Call();
    }
  }

  datatype DownloadError = NoBuild | FetchFailed | NoArtifacts | CheckFailed(name: string)
                         | ObjectMissing(name: string) | LoadFailed(name: string) | TagFailed(name: string)

  function MainTag(tag: string): string {
    if tag == "" then "main" else tag
  }

  class Downloader {
    const docker: Docker
    const server: Outside
    const builds: map<string, Release>
    const channels: map<string, Release>

    constructor (docker: Docker, server: Outside, builds: map<string, Release>, channels: map<string, Release>)
      ensures this.docker == docker && this.server == server
      ensures this.builds == builds && this.channels == channels
    {
      this.docker, this.server, this.builds, this.channels := docker, server, builds, channels;
    }

    ghost function Faults(): nat
      reads docker, server
    {
      docker.faults + server.faults
    }

    /** The release given, else the channel's, else the named build, if there is such a one. */
    function Offered(c: DownloadConfig): Option<Release> {
      if c.release.Some? then c.release
      else if c.channel != "" then Lookup(channels, c.channel)
      else if c.build != "" then Lookup(builds, c.build)
      else None
    }

    method FetchBuild(name: string) returns (r: Result<Release, DownloadError>)
      modifies server
      ensures server.faults == old(server.faults) ==> r.ToOption() == Lookup(builds, name)
      ensures r.Ok? ==> server.faults == old(server.faults)
      ensures r.Err? ==> r.error == FetchFailed && server.faults >= old(server.faults)
    {
      var up := server.Call();
      return if up && name in builds then Ok(builds[name]) else Err(FetchFailed);
    }

    method FetchRelease(c: DownloadConfig) returns (r: Result<Release, DownloadError>)
      modifies server
      ensures server.faults == old(server.faults) ==> r.ToOption() == Offered(c)
      ensures r.Ok? ==> server.faults == old(server.faults)
      ensures r.Err? ==> server.faults >= old(server.faults)
      ensures r == Err(NoBuild) <==> c.release == None && c.channel == "" && c.build == ""
      ensures c.release.Some? ==> r == Ok(c.release.value)
      ensures r.Ok? && c.release == None && c.channel != "" ==> Lookup(channels, c.channel) == Some(r.value)
      ensures r.Ok? && c.release == None && c.channel == "" ==> Lookup(builds, c.build) == Some(r.value)
    {
      if c.release.Some? {
        return Ok(c.release.value);
      }
      if c.channel != "" {
        var up := server.Call();
        return if up && c.channel in channels then Ok(channels[c.channel]) else Err(FetchFailed);
      }
      if c.build != "" {
        r := FetchBuild(c.build);
        return;
      }
      return Err(NoBuild);
    }

    /** Which images a download is about. */
    static method SelectImages(c: DownloadConfig, arts: Artifacts) returns (images: seq<DownloadImage>)
      ensures CoreImages(arts) <= images
      ensures !c.coreOnly ==> CoreImages(arts) + SystemImages(arts) <= images
      ensures forall img :: img in images <==> Selected(c, arts, img)
    {
      images := CoreImages(arts);
      if !c.coreOnly {
        images := images + SystemImages(arts);
        var nextcloudMajor := c.CurrentMajor(APP_NEXTCLOUD);
        ghost var fixed := images;
        var n := |arts.nextclouds|;
        for i := 0 to n
          invariant fixed <= images
          invariant forall img :: img in images <==> img in fixed || WantedBefore(c, arts.nextclouds, i, img)
        {
          var nc := arts.nextclouds[i];
          if (c.latestOnly && i != n - 1) || (nextcloudMajor > 0 && nc.major < nextcloudMajor) {
          } else {
            images := images + [RungImage(nc)];
          }
          forall img ensures img in images <==> img in fixed || WantedBefore(c, arts.nextclouds, i + 1, img) {
            assert WantedBefore(c, arts.nextclouds, i + 1, img) <==>
                   WantedBefore(c, arts.nextclouds, i, img) ||
                   (Wanted(c.latestOnly, nextcloudMajor, i, n, nc) && img == RungImage(nc));
          }
        }
      }
    }

    method Load(img: DownloadImage, sums: Option<map<string, string>>) returns (r: Result<(), DownloadError>)
      modifies docker`images, docker`faults
      ensures docker.images == old(docker.images) || docker.images == old(docker.images) + {img.hash}
      ensures r.Ok? ==> img.hash in docker.images
      ensures docker.images != old(docker.images) ==> sums == None || img.hash in sums.value
      ensures sums.Some? && img.hash !in sums.value ==> r == Err(ObjectMissing(img.name))
      ensures docker.faults == old(docker.faults) + Fault(r.Ok? || r.error.ObjectMissing?)
      ensures r.Err? && r.error.ObjectMissing? ==> sums.Some? && img.hash !in sums.value
    {
      if sums.Some? && img.hash !in sums.value {
        return Err(ObjectMissing(img.name));
      }
      var ok := docker.Call();
      if !ok {
        return Err(LoadFailed(img.name));
      }
      docker.images := docker.images + {img.hash};
      return Ok(());
    }

    /** One image that has a hash: loaded unless it is there, then tagged. */
    method FetchImage(img: DownloadImage, sums: Option<map<string, string>>) returns (r: Result<(), DownloadError>)
      modifies docker`images, docker`tags, docker`faults
      ensures docker.images == old(docker.images) || docker.images == old(docker.images) + {img.hash}
      ensures docker.images != old(docker.images) ==> sums == None || img.hash in sums.value
      ensures r.Ok? ==> img.hash in docker.images
      ensures r.Ok? ==> docker.tags == old(docker.tags)[(img.name, MainTag(img.tag)) := img.hash]
      ensures docker.faults >= old(docker.faults) && (r.Ok? ==> docker.faults == old(docker.faults))
      ensures docker.faults == old(docker.faults) ==> (r.Ok? <==> Available(img, sums, old(docker.images)))
    {
      var checked := docker.Call();
      if !checked {
        return Err(CheckFailed(img.name));
      }
      if img.hash !in docker.images {
        var loaded := Load(img, sums);
        if loaded.Err? {
          return Err(loaded.error);
        }
      }
      var ok := docker.Call();
      if !ok {
        return Err(TagFailed(img.name));
      }
      docker.tags := docker.tags[(img.name, MainTag(img.tag)) := img.hash];
      return Ok(());
    }

    /**
     Afterwards every image that has a hash is there, and its name points to the last one asked for.
     While no call fails, an image that cannot be had is the only thing to stop it.
     */
    method DownloadImages(imgs: seq<DownloadImage>, sums: Option<map<string, string>>)
      returns (r: Result<(), DownloadError>)
      modifies docker`images, docker`tags, docker`faults
      ensures old(docker.images) <= docker.images <= old(docker.images) + HashesOf(imgs)
      ensures r.Ok? ==> AllThere(imgs, docker.images)
      ensures r.Ok? ==> docker.tags == Tagged(old(docker.tags), imgs)
      ensures docker.faults >= old(docker.faults) && (r.Ok? ==> docker.faults == old(docker.faults))
      ensures docker.faults == old(docker.faults) ==> (r.Ok? <==> AllAvailable(imgs, sums, old(docker.images)))
    {
      ghost var before, tags := docker.images, docker.tags;
      for i := 0 to |imgs|
        invariant docker.faults == old(docker.faults)
        invariant before <= docker.images <= before + HashesOf(imgs)
        invariant LoadedOnly(docker.images, before, sums)
        invariant AllThere(imgs[..i], docker.images)
        invariant docker.tags == Tagged(tags, imgs[..i])
      {
        var img := imgs[i];
        ghost var there := docker.images;
        assert imgs[..i + 1] == imgs[..i] + [img] && imgs[..i + 1][..i] == imgs[..i];
        if img.hash == "" {
          continue;
        }
        r := FetchImage(img, sums);
        if r.Err? {
          assert img in imgs && before <= there;
          return;
        }
        OneMoreThere(imgs, i, there, docker.images);
      }
      assert imgs[..|imgs|] == imgs;
      LoadedMeansAvailable(imgs, sums, before, docker.images);
      return Ok(());
    }

    /** While no call fails, this succeeds exactly if there is such a release and all its images can be had. */
    method DownloadRelease(c: DownloadConfig) returns (r: Result<Release, DownloadError>)
      modifies docker`images, docker`tags, docker`faults, server
      ensures old(docker.images) <= docker.images
      ensures Faults() >= old(Faults()) && (r.Ok? ==> Faults() == old(Faults()))
      ensures r.Ok? ==> Offered(c) == Some(r.value)
      ensures r.Ok? ==> r.value.artifacts.Some? && Fetched(c, r.value.artifacts.value, docker.images)
      ensures Faults() == old(Faults()) ==>
                (r.Ok? <==>
                  && Offered(c).Some? && Offered(c).value.artifacts.Some?
                  && Obtainable(c, Offered(c).value.artifacts.value, old(docker.images)))
    {
      var rel := FetchRelease(c);
      if rel.Err? {
        return Err(rel.error);
      }
      if rel.value.artifacts == None {
        return Err(NoArtifacts);
      }
      var arts := rel.value.artifacts.value;
      var images := SelectImages(c, arts);
      var done := DownloadImages(images, arts.imageSums);
      if done.Err? {
        return Err(done.error);
      }
      return Ok(rel.value);
    }
  }

  /** An image's name points to the last image with a hash that was asked for under it; no tag means "main". */
  lemma {:induction false} TaggedByTheLast(tags: map<(string, string), string>, imgs: seq<DownloadImage>, i: nat)
    requires i < |imgs| && imgs[i].hash != ""
    requires forall j :: i < j < |imgs| && imgs[j].hash != "" ==>
               (imgs[j].name, MainTag(imgs[j].tag)) != (imgs[i].name, MainTag(imgs[i].tag))
    ensures var key := (imgs[i].name, if imgs[i].tag == "" then "main" else imgs[i].tag);
      key in Tagged(tags, imgs) && Tagged(tags, imgs)[key] == imgs[i].hash
    decreases |imgs|
  {
    if i < |imgs| - 1 {
      TaggedByTheLast(tags, imgs[..|imgs| - 1], i);
    }
  }

  ghost function HashesOf(imgs: seq<DownloadImage>): set<string> {
    set img | img in imgs :: img.hash
  }

  ghost predicate AllThere(imgs: seq<DownloadImage>, images: set<string>) {
    forall img :: img in imgs && img.hash != "" ==> img.hash in images
  }

  ghost predicate AllAvailable(imgs: seq<DownloadImage>, sums: Option<map<string, string>>, images: set<string>) {
    forall img :: img in imgs && img.hash != "" ==> Available(img, sums, images)
  }

  /** What is there now was there before, or could be loaded. */
  ghost predicate LoadedOnly(images: set<string>, before: set<string>, sums: Option<map<string, string>>) {
    forall h :: h in images ==> h in before || sums == None || h in sums.value
  }

  lemma OneMoreThere(imgs: seq<DownloadImage>, i: nat, there: set<string>, images: set<string>)
    requires i < |imgs| && there <= images
    requires AllThere(imgs[..i], there) && imgs[i].hash in images
    ensures AllThere(imgs[..i + 1], images)
  {
    assert imgs[..i + 1] == imgs[..i] + [imgs[i]];
  }

  lemma LoadedMeansAvailable(imgs: seq<DownloadImage>, sums: Option<map<string, string>>,
                             before: set<string>, images: set<string>)
    requires AllThere(imgs, images) && LoadedOnly(images, before, sums)
    ensures AllAvailable(imgs, sums, before)
  {
  }

  /** The tags after all of `imgs` have been tagged in turn; a later tag replaces an earlier one. */
  ghost function Tagged(tags: map<(string, string), string>, imgs: seq<DownloadImage>): map<(string, string), string> {
    if imgs == [] then tags
    else
      var img, before := imgs[|imgs| - 1], Tagged(tags, imgs[..|imgs| - 1]);
      if img.hash == "" then before else before[(img.name, MainTag(img.tag)) := img.hash]
  }

  ghost predicate WantedBefore(c: DownloadConfig, ladder: seq<StepVersion>, k: nat, img: DownloadImage) {
    exists i :: 0 <= i < k && i < |ladder| && img == RungImage(ladder[i]) &&
      Wanted(c.latestOnly, c.CurrentMajor(APP_NEXTCLOUD), i, |ladder|, ladder[i])
  }

  ghost predicate IsWantedRung(c: DownloadConfig, ladder: seq<StepVersion>, img: DownloadImage) {
    WantedBefore(c, ladder, |ladder|, img)
  }

  /** Everything a download selects, and that has an image at all, is in the image store. */
  ghost predicate Fetched(c: DownloadConfig, arts: Artifacts, images: set<string>) {
    forall img :: Selected(c, arts, img) && img.hash != "" ==> img.hash in images
  }

  // ---- A download and the climb it is for ------------------------------------------------------

  /** A full download selects every rung of the climb exactly when it did not record a later start. */
  lemma DownloadCoversClimb(c: DownloadConfig, arts: Artifacts, cur: int)
    requires !c.coreOnly && !c.latestOnly
    ensures (forall s :: s in Climb(LadderMap(arts.nextclouds), cur) ==>
               IsWantedRung(c, arts.nextclouds, RungImage(s))) <==>
              || c.CurrentMajor(APP_NEXTCLOUD) <= cur || c.CurrentMajor(APP_NEXTCLOUD) == 0
              || cur !in LadderMap(arts.nextclouds)
  {
    var ladder, all := arts.nextclouds, Climb(LadderMap(arts.nextclouds), cur);
    var recorded := c.CurrentMajor(APP_NEXTCLOUD);
    LadderMapIsKeyed(ladder);
    ClimbIsConsecutive(ladder, cur);
    if recorded <= cur || recorded == 0 {
      forall s | s in all ensures IsWantedRung(c, ladder, RungImage(s)) {
        var k :| 0 <= k < |all| && all[k] == s;
        assert s in ladder && s.major == cur + k;
        var i :| 0 <= i < |ladder| && ladder[i] == s;
        assert Wanted(c.latestOnly, recorded, i, |ladder|, ladder[i]);
      }
    } else if cur in LadderMap(ladder) {
      var s := all[0];
      assert s in all && s.major == cur;
      if IsWantedRung(c, ladder, RungImage(s)) {
        var i :| 0 <= i < |ladder| && RungImage(s) == RungImage(ladder[i]) &&
                 Wanted(c.latestOnly, recorded, i, |ladder|, ladder[i]);
        ItoaInjective(s.major, ladder[i].major);
      }
    }
  }

  /**
   The failing input: a ladder with a gap.  The upgrade from 20 ends at the gap, which the code only
   logs, yet the version recorded is that of the ladder's end; the next download goes by it and
   leaves out the very rung the next upgrade starts from.
   */
  lemma GapInTheLadder() returns (arts: Artifacts, c: DownloadConfig, done: StepVersion)
    ensures Climb(LadderMap(arts.nextclouds), 20) == [done] && WellLabelled(arts.nextclouds)
    ensures Major(done.version) == Some(20)
    ensures !c.coreOnly && !c.latestOnly
    ensures c.currentSemVersions == Some(map[APP_NEXTCLOUD := LastStepVersion(arts.nextclouds)])
    ensures c.CurrentMajor(APP_NEXTCLOUD) == 22
    ensures !IsWantedRung(c, arts.nextclouds, RungImage(done))
  {
    done := StepVersion(20, Itoa(20) + ".1", "nc20");
    var last := StepVersion(22, Itoa(22) + ".1", "nc22");
    arts := Artifacts("core", "door", "tool", "front", "nc22", "redis", "pg", [done, last], [], None);
    c := DownloadConfig(None, "", "build", false, false, Some(map[APP_NEXTCLOUD := LastStepVersion(arts.nextclouds)]));
    ClimbEndsAtTheGap(done, last);
    MajorOfTag(20, ".1");
    MajorOfTag(22, ".1");
    assert RungImage(Climb(LadderMap(arts.nextclouds), 20)[0]) == RungImage(done);
    LadderMapIsKeyed(arts.nextclouds);
    assert done in arts.nextclouds;
    DownloadCoversClimb(c, arts, 20);
  }

  /**
   After a full download, an upgrade finds the image of every rung it climbs, whatever the
   recorded version says, as long as it does not claim a later major than the one detected.
   */
  lemma UpgradeFindsItsImages(c: DownloadConfig, arts: Artifacts, images: set<string>, cur: int,
                              hint: Option<string>, p: Progress)
    requires !c.coreOnly && !c.latestOnly && Fetched(c, arts, images)
    requires c.CurrentMajor(APP_NEXTCLOUD) <= cur
    requires Climbed(LadderMap(arts.nextclouds), cur, hint, p)
    ensures forall s :: s in p.begun && s.image != "" ==> s.image in images
  {
    DownloadCoversClimb(c, arts, cur);
    var all := Climb(LadderMap(arts.nextclouds), cur);
    forall s | s in p.begun && s.image != "" ensures s.image in images {
      assert s in all;
      assert Selected(c, arts, RungImage(s)) && RungImage(s).hash == s.image;
    }
  }
}

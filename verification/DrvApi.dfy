/** The records that travel between the release server and a drive. */
module DrvApi {
  import opened Basics

  /** One rung of an upgrade ladder. */
  datatype StepVersion = StepVersion(major: int, version: string, image: string)

  datatype AppMeta = AppMeta(
    name: string,
    deps: seq<string>,
    version: int,
    semVersion: string,
    image: string,
    steps: seq<StepVersion>)

  /** The images of a release; the ladders list one step per major version. */
  datatype Artifacts = Artifacts(
    jarvis: string, doorway: string, toolbox: string,
    ncFront: string, nextcloud: string, redis: string, postgres: string,
    nextclouds: seq<StepVersion>,
    postgreses: seq<StepVersion>,
    imageSums: Option<map<string, string>>)

  datatype Release = Release(name: string, artifacts: Option<Artifacts>, apps: Option<seq<AppMeta>>)

  /** What an app registry answers queries from: metas indexed by app name. */
  type Manifest = map<string, AppMeta>

  /** Every meta is stored under its own name. */
  ghost predicate Keyed(q: Manifest) {
    forall k :: k in q ==> q[k].name == k
  }
}

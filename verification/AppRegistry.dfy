/** jarvis/app_registry.go: the manifest of the release a drive runs or moves to. */
module AppRegistries {
  import opened Basics
  import opened DrvApi

  const APP_REDIS := "redis"
  const APP_POSTGRES := "postgres"
  const APP_NCFRONT := "ncfront"
  const APP_NEXTCLOUD := "nextcloud"

  function LastStepVersion(steps: seq<StepVersion>): string {
    if steps == [] then "" else steps[|steps| - 1].version
  }

  /** The four apps a release without an app list implies. */
  function LegacyCandidates(arts: Artifacts): seq<AppMeta> {
    [ AppMeta(APP_REDIS, [], 0, "", arts.redis, []),
      AppMeta(APP_POSTGRES, [], 0, "", arts.postgres, arts.postgreses),
      AppMeta(APP_NCFRONT, [], 0, "", arts.ncFront, []),
      AppMeta(APP_NEXTCLOUD, [APP_NCFRONT, APP_POSTGRES, APP_REDIS], 0,
              LastStepVersion(arts.nextclouds), arts.nextcloud, arts.nextclouds) ]
  }

  function WithImage(metas: seq<AppMeta>): seq<AppMeta> {
    if metas == [] then []
    else (if metas[0].image != "" then [metas[0]] else []) + WithImage(metas[1..])
  }

  lemma {:induction false} WithImageIsFilter(metas: seq<AppMeta>, m: AppMeta)
    ensures m in WithImage(metas) <==> m in metas && m.image != ""
  {
    if metas != [] {
      WithImageIsFilter(metas[1..], m);
    }
  }

  function MetasOf(rel: Release): seq<AppMeta> {
    match rel.apps
    case Some(metas) => metas
    case None =>
      match rel.artifacts
      case Some(arts) => WithImage(LegacyCandidates(arts))
      case None => []
  }

  function ManifestOfMetas(metas: seq<AppMeta>): Manifest {
    if metas == [] then map[]
    else var last := metas[|metas| - 1];
         ManifestOfMetas(metas[..|metas| - 1])[last.name := last]
  }

  function ManifestOf(rel: Release): Manifest {
    ManifestOfMetas(MetasOf(rel))
  }

  /** Every meta is found under its own name; of two metas with one name the later one counts. */
  lemma {:induction false} ManifestIsKeyed(metas: seq<AppMeta>, i: nat)
    ensures Keyed(ManifestOfMetas(metas))
    ensures i < |metas| && (forall j :: i < j < |metas| ==> metas[j].name != metas[i].name) ==>
              Lookup(ManifestOfMetas(metas), metas[i].name) == Some(metas[i])
    ensures forall x :: x in ManifestOfMetas(metas) ==> ManifestOfMetas(metas)[x] in metas
  {
    if metas != [] {
      ManifestIsKeyed(metas[..|metas| - 1], i);
    }
  }

  /** A release that lists apps offers those, and no others; of two with one name the later one. */
  lemma ListedAppsAreOffered(rel: Release, i: nat)
    requires rel.apps.Some? && i < |rel.apps.value|
    requires forall j :: i < j < |rel.apps.value| ==> rel.apps.value[j].name != rel.apps.value[i].name
    ensures Lookup(ManifestOf(rel), rel.apps.value[i].name) == Some(rel.apps.value[i])
    ensures forall x :: x in ManifestOf(rel) ==> ManifestOf(rel)[x] in rel.apps.value
  {
    ManifestIsKeyed(rel.apps.value, i);
  }

  /**
   A release without an app list offers the four apps that its artifacts name an image for, nextcloud
   on top of the three others.
   */
  lemma LegacyAppsAreOffered(name: string, arts: Artifacts)
    ensures var q := ManifestOf(Release(name, Some(arts), None));
      && Lookup(q, "redis") == OfferedIf(AppMeta("redis", [], 0, "", arts.redis, []))
      && Lookup(q, "postgres") == OfferedIf(AppMeta("postgres", [], 0, "", arts.postgres, arts.postgreses))
      && Lookup(q, "ncfront") == OfferedIf(AppMeta("ncfront", [], 0, "", arts.ncFront, []))
      && Lookup(q, "nextcloud") == OfferedIf(AppMeta("nextcloud", ["ncfront", "postgres", "redis"], 0,
           if arts.nextclouds == [] then "" else arts.nextclouds[|arts.nextclouds| - 1].version,
           arts.nextcloud, arts.nextclouds))
      && q.Keys <= {"redis", "postgres", "ncfront", "nextcloud"}
  {
    var all := LegacyCandidates(arts);
    assert all[0].name == "redis" && all[1].name == "postgres";
    assert all[2].name == "ncfront" && all[3].name == "nextcloud";
    forall i: nat | i < 4 ensures Lookup(ManifestOfMetas(WithImage(all)), all[i].name) == OfferedIf(all[i]) {
      DistinctAreOffered(all, i);
    }
    ManifestIsKeyed(WithImage(all), 0);
    forall x | x in ManifestOfMetas(WithImage(all)) ensures x in {"redis", "postgres", "ncfront", "nextcloud"} {
      WithImageIsFilter(all, ManifestOfMetas(WithImage(all))[x]);
    }
  }

  function OfferedIf(m: AppMeta): Option<AppMeta> {
    if m.image != "" then Some(m) else None
  }

  ghost predicate DistinctNames(metas: seq<AppMeta>) {
    forall i, j :: 0 <= i < j < |metas| ==> metas[i].name != metas[j].name
  }

  lemma {:induction false} FilterKeepsDistinct(metas: seq<AppMeta>)
    requires DistinctNames(metas)
    ensures DistinctNames(WithImage(metas))
  {
    if metas != [] {
      FilterKeepsDistinct(metas[1..]);
      forall m | m in WithImage(metas[1..]) ensures m in metas[1..] && m.name != metas[0].name {
        WithImageIsFilter(metas[1..], m);
      }
    }
  }

  lemma {:induction false} DistinctAreOffered(metas: seq<AppMeta>, i: nat)
    requires DistinctNames(metas) && i < |metas|
    ensures Lookup(ManifestOfMetas(WithImage(metas)), metas[i].name) == OfferedIf(metas[i])
  {
    var kept := WithImage(metas);
    FilterKeepsDistinct(metas);
    WithImageIsFilter(metas, metas[i]);
    ManifestIsKeyed(kept, 0);
    if metas[i].image != "" {
      var k :| 0 <= k < |kept| && kept[k] == metas[i];
      ManifestIsKeyed(kept, k);
    } else {
      forall m | m in kept ensures m.name != metas[i].name {
        WithImageIsFilter(metas, m);
        var j :| 0 <= j < |metas| && metas[j] == m;
        assert j < i || i < j;
      }
    }
  }

  /** A release without an app list offers nextcloud with exactly the ladder the release ships. */
  lemma LegacyNextcloudHasTheReleaseLadder(name: string, arts: Artifacts)
    requires arts.nextcloud != ""
    ensures var q := ManifestOf(Release(name, Some(arts), None));
      APP_NEXTCLOUD in q && q[APP_NEXTCLOUD].steps == arts.nextclouds &&
      q[APP_NEXTCLOUD].semVersion == LastStepVersion(arts.nextclouds)
  {
    var all, metas := LegacyCandidates(arts), WithImage(LegacyCandidates(arts));
    LastSurvivesFilter(all);
    ManifestIsKeyed(metas, |metas| - 1);
  }

  lemma {:induction false} LastSurvivesFilter(metas: seq<AppMeta>)
    requires metas != [] && metas[|metas| - 1].image != ""
    ensures WithImage(metas) != [] && WithImage(metas)[|WithImage(metas)| - 1] == metas[|metas| - 1]
  {
    if |metas| > 1 {
      LastSurvivesFilter(metas[1..]);
    }
  }

  class AppRegistry {
    var manifest: Manifest

    ghost predicate Valid()
      reads this
    {
      Keyed(manifest)
    }

    constructor (rel: Release)
      ensures Valid() && manifest == ManifestOf(rel)
    {
      ManifestIsKeyed(MetasOf(rel), 0);
      manifest := ManifestOf(rel);
    }

    /** Fills a manifest meta by meta. */
    static method MakeManifest(metas: seq<AppMeta>) returns (m: Manifest)
      ensures m == ManifestOfMetas(metas)
    {
      m := map[];
      for i := 0 to |metas|
        invariant m == ManifestOfMetas(metas[..i])
      {
        assert metas[..i + 1][..i] == metas[..i];
        m := m[metas[i].name := metas[i]];
      }
      assert metas[..|metas|] == metas;
    }

    method SetRelease(rel: Release)
      modifies this
      ensures Valid() && manifest == ManifestOf(rel)
    {
      ManifestIsKeyed(MetasOf(rel), 0);
      manifest := MakeManifest(MetasOf(rel));
    }
  }
}

/**
 What applying a set of anchors to an installed system means, on values: the apps to keep, the
 state an uninterrupted run ends in, and what an interrupted run may have left behind.
 */
module AppsPlan {
  import opened Basics
  import opened DrvApi
  import opened DepGraph

  type Metas = map<string, AppMeta>

  /** A copy of the apps state: what the store keeps, and what memory holds at some moment. */
  datatype Snapshot = Snapshot(metas: Metas, anchored: set<string>)

  function SemVersionsOf(metas: Metas): map<string, string> {
    map x | x in metas :: metas[x].semVersion
  }

  predicate SameAppVersion(m1: AppMeta, m2: AppMeta) {
    m1.version == m2.version && m1.semVersion == m2.semVersion && m1.image == m2.image
  }

  /** Installed, at the manifest's version. */
  ghost predicate Current(q: Manifest, metas: Metas, x: string) {
    x in metas && x in q && SameAppVersion(metas[x], q[x])
  }

  /** The dependency closure of the anchors. */
  ghost function Keep(q: Manifest, anchors: set<string>): set<string> {
    Needs(q, {}, anchors)
  }

  /** The anchors asked for, and the apps they make it necessary to keep. */
  datatype Goal = Goal(keep: set<string>, anchors: set<string>)

  ghost function GoalOf(q: Manifest, anchors: set<string>): Goal {
    Goal(Keep(q, anchors), anchors)
  }

  ghost predicate Installed(q: Manifest, st: Snapshot) {
    st.metas.Keys == Keep(q, st.anchored) && forall x :: x in st.metas ==> Current(q, st.metas, x)
  }

  /** Apps that are already at the right version keep the meta they were installed with. */
  ghost function Target(q: Manifest, keep: set<string>, metas: Metas): Metas {
    map x | x in keep && x in q :: if Current(q, metas, x) then metas[x] else q[x]
  }

  ghost function Applied(q: Manifest, g: Goal, st: Snapshot): Snapshot {
    Snapshot(Target(q, g.keep, st.metas), g.anchors)
  }

  /** Missing, or installed at a version an upgrade may leave behind. */
  ghost predicate Outdated(q: Manifest, metas: Metas, x: string) {
    !Current(q, metas, x) && (x in metas && x in q ==> metas[x].version <= q[x].version)
  }

  /** `m1` is `m0` with some of the outdated apps to keep brought up, and some of the rest gone. */
  ghost predicate InProgress(q: Manifest, keep: set<string>, m0: Metas, m1: Metas) {
    && (forall x :: x in keep ==>
          Lookup(m1, x) == Lookup(m0, x) || (Outdated(q, m0, x) && Lookup(m1, x) == Lookup(q, x)))
    && (forall x :: x in m1 && x !in keep ==> Lookup(m0, x) == Some(m1[x]))
  }

  /** Where a run that stops early may leave a state it found as `st0`. */
  ghost predicate Reached(q: Manifest, g: Goal, st0: Snapshot, st1: Snapshot) {
    && InProgress(q, g.keep, st0.metas, st1.metas)
    && (st1.anchored == st0.anchored || st1 == Applied(q, g, st0))
  }

  /** The manifest can serve the anchors, and can name everything that has to go. */
  ghost predicate Plannable(q: Manifest, g: Goal, metas: Metas) {
    && (forall a :: a in g.anchors ==> Resolves(q, {}, a))
    && (forall x :: x in metas && x !in g.keep ==> Resolves(q, g.keep, x))
  }

  /**
   A plan can be made exactly if every anchor and every installed app resolves by itself: one
   installed app that is unlisted, or depends on an unlisted or circular one, blocks everything.
   */
  lemma PlannableMeansAllResolve(q: Manifest, anchors: set<string>, metas: Metas)
    ensures Plannable(q, GoalOf(q, anchors), metas) <==>
              (forall a :: a in anchors ==> Resolves(q, {}, a)) && (forall x :: x in metas ==> Resolves(q, {}, x))
  {
    var keep := Keep(q, anchors);
    if forall a :: a in anchors ==> Resolves(q, {}, a) {
      NeedsIsClosed(q, {}, anchors);
      forall x | x in metas ensures Resolves(q, keep, x) <==> Resolves(q, {}, x) {
        ResolvesBesideSoundNames(q, keep, x);
      }
    }
  }

  ghost predicate NoDowngrade(q: Manifest, keep: set<string>, metas: Metas) {
    forall x :: x in keep && x in metas && x in q ==>
      SameAppVersion(metas[x], q[x]) || metas[x].version <= q[x].version
  }

  lemma InProgressTrans(q: Manifest, keep: set<string>, m0: Metas, m1: Metas, m2: Metas)
    requires InProgress(q, keep, m0, m1) && InProgress(q, keep, m1, m2)
    ensures InProgress(q, keep, m0, m2)
  {
  }

  /** Interruptions do not change where a run is heading. */
  lemma InterruptedRunHeadsTheSameWay(q: Manifest, g: Goal, st0: Snapshot, st1: Snapshot)
    requires Reached(q, g, st0, st1)
    ensures Applied(q, g, st1) == Applied(q, g, st0)
    ensures Plannable(q, g, st0.metas) ==> Plannable(q, g, st1.metas)
    ensures NoDowngrade(q, g.keep, st0.metas) ==> NoDowngrade(q, g.keep, st1.metas)
  {
  }

  /** A state that is in progress, current and free of leftovers is the target. */
  lemma FinishedIsTarget(q: Manifest, keep: set<string>, m0: Metas, m: Metas)
    requires InProgress(q, keep, m0, m)
    requires m.Keys == keep && forall x :: x in keep ==> Current(q, m, x)
    ensures m == Target(q, keep, m0)
  {
  }

  lemma CurrentMeansNoDowngrade(q: Manifest, keep: set<string>, m0: Metas, m: Metas)
    requires InProgress(q, keep, m0, m) && forall x :: x in keep ==> Current(q, m, x)
    ensures NoDowngrade(q, keep, m0)
  {
  }

  lemma AppliedIsInstalled(q: Manifest, g: Goal, st: Snapshot)
    requires g == GoalOf(q, g.anchors)
    ensures Installed(q, Applied(q, g, st))
    ensures NoDowngrade(q, g.keep, st.metas) ==> Reached(q, g, st, Applied(q, g, st))
  {
  }

  /** Nothing is left to do in a state that only progress separates from a finished one. */
  lemma ProgressFromInstalledStays(q: Manifest, g: Goal, st0: Snapshot, m: Metas)
    requires Installed(q, st0) && g == GoalOf(q, st0.anchored)
    requires InProgress(q, g.keep, st0.metas, m)
    ensures m == st0.metas
  {
  }

  lemma ReachedTrans(q: Manifest, g: Goal, st0: Snapshot, st1: Snapshot, st2: Snapshot)
    requires g == GoalOf(q, g.anchors)
    requires Reached(q, g, st0, st1) && Reached(q, g, st1, st2)
    ensures Reached(q, g, st0, st2)
  {
    InProgressTrans(q, g.keep, st0.metas, st1.metas, st2.metas);
    InterruptedRunHeadsTheSameWay(q, g, st0, st1);
    AppliedIsInstalled(q, g, st0);
    if st1.anchored != st0.anchored && st2.anchored == st1.anchored {
      ProgressFromInstalledStays(q, g, st1, st2.metas);
    }
  }

  /** The target is the manifest's: every kept app has the manifest's version, semantic version and image. */
  lemma TargetFieldByField(q: Manifest, g: Goal, st: Snapshot, x: string)
    requires g == GoalOf(q, g.anchors) && x in g.keep
    ensures x in q && x in Applied(q, g, st).metas
    ensures Applied(q, g, st).metas[x].version == q[x].version
    ensures Applied(q, g, st).metas[x].semVersion == q[x].semVersion
    ensures Applied(q, g, st).metas[x].image == q[x].image
  {
  }

  /** The records are those of the apps to keep, each with the manifest's version, semantic version and image. */
  ghost predicate AtManifest(q: Manifest, keep: set<string>, metas: Metas) {
    && metas.Keys == keep
    && forall x :: x in keep ==>
         && x in q && metas[x].version == q[x].version
         && metas[x].semVersion == q[x].semVersion && metas[x].image == q[x].image
  }

  lemma TargetIsAtManifest(q: Manifest, g: Goal, st: Snapshot)
    requires g == GoalOf(q, g.anchors)
    ensures AtManifest(q, g.keep, Applied(q, g, st).metas)
  {
    forall x | x in g.keep ensures x in q {
      TargetFieldByField(q, g, st, x);
    }
  }

  /** A run is only stopped by an app whose version would go down; to stay at a version is no downgrade. */
  lemma DowngradeFieldByField(q: Manifest, keep: set<string>, metas: Metas)
    ensures NoDowngrade(q, keep, metas) <==>
              forall x :: x in keep && x in metas && x in q ==> metas[x].version <= q[x].version
  {
  }

  /** There is something to do about an app to keep exactly if it is missing or one of three fields differs. */
  lemma TodoFieldByField(q: Manifest, keep: set<string>, metas: Metas, x: string)
    requires x in keep && x in q
    ensures Todo(q, keep, metas, x) <==>
              || x !in metas || metas[x].version != q[x].version
              || metas[x].semVersion != q[x].semVersion || metas[x].image != q[x].image
  {
  }

  // ---- One change at a time --------------------------------------------------------------------

  datatype AppChange = AppChange(name: string, from: Option<AppMeta>, to: Option<AppMeta>)

  function WithApp(metas: Metas, name: string, m: Option<AppMeta>): Metas {
    match m
    case Some(v) => metas[name := v]
    case None => metas - {name}
  }

  ghost predicate AgreeExcept(a: Metas, b: Metas, name: string) {
    forall x :: x != name ==> Lookup(a, x) == Lookup(b, x)
  }

  /** No installed app depends on `name`. */
  ghost predicate Free(q: Manifest, metas: Metas, name: string) {
    forall y :: y in metas ==> y in q && name !in q[y].deps
  }

  /**
   A change is called in good order.  To install or upgrade: the app is wanted and not current,
   all its dependencies are current already, and its version does not go down.  To uninstall: the
   app is there and not wanted, and no app that is still there depends on it.
   */
  ghost predicate GoodChange(q: Manifest, keep: set<string>, c: AppChange, metas: Metas) {
    && c.from == Lookup(metas, c.name)
    && match c.to {
         case Some(m) =>
           && c.name in keep && c.name in q && m == q[c.name]
           && !Current(q, metas, c.name)
           && (forall d :: d in m.deps ==> Current(q, metas, d))
           && (c.from.Some? ==> c.from.value.version <= m.version)
         case None =>
           && c.from.Some? && c.name !in keep
           && Free(q, metas, c.name)
           && (forall x :: x in keep ==> Current(q, metas, x))
       }
  }

  lemma GoodChangeIsProgress(q: Manifest, keep: set<string>, m0: Metas, m1: Metas, c: AppChange)
    requires InProgress(q, keep, m0, m1) && GoodChange(q, keep, c, m1)
    ensures InProgress(q, keep, m0, WithApp(m1, c.name, c.to))
  {
  }

  // ---- Memory, store and the running apps -----------------------------------------------------

  /** There is still something to do about `x`. */
  ghost predicate Todo(q: Manifest, keep: set<string>, metas: Metas, x: string) {
    if x in keep then !Current(q, metas, x) else x in metas
  }

  /** What runs is what is recorded, except for apps that a run would touch anyway. */
  ghost predicate Settled(q: Manifest, keep: set<string>, running: Metas, metas: Metas) {
    forall x :: Lookup(running, x) == Lookup(metas, x) || Todo(q, keep, metas, x)
  }

  /** The store may lag behind memory, and both may lag behind what runs, but only on unfinished apps. */
  ghost predicate Aligned(q: Manifest, keep: set<string>, mem: Metas, saved: Metas, running: Metas) {
    && InProgress(q, keep, saved, mem)
    && Settled(q, keep, running, mem)
    && Settled(q, keep, running, saved)
  }

  lemma TodoBefore(q: Manifest, keep: set<string>, m0: Metas, m1: Metas, x: string)
    requires InProgress(q, keep, m0, m1) && Todo(q, keep, m1, x)
    ensures Todo(q, keep, m0, x)
  {
  }

  /** A change, finished or not, disturbs only an app that is unfinished in memory and in the store. */
  lemma AlignedAfterCall(q: Manifest, keep: set<string>, mem: Metas, saved: Metas,
                         running: Metas, running': Metas, name: string)
    requires Aligned(q, keep, mem, saved, running)
    requires Todo(q, keep, mem, name) && AgreeExcept(running', running, name)
    ensures Aligned(q, keep, mem, saved, running')
  {
  }

  lemma AlignedAfterChange(q: Manifest, keep: set<string>, mem: Metas, saved: Metas, running: Metas, c: AppChange)
    requires Aligned(q, keep, mem, saved, running)
    requires GoodChange(q, keep, c, mem) && Lookup(running, c.name) == c.to
    ensures Aligned(q, keep, WithApp(mem, c.name, c.to), saved, running)
  {
    GoodChangeIsProgress(q, keep, saved, mem, c);
  }

  lemma AlignedWithItself(q: Manifest, keep: set<string>, metas: Metas, running: Metas)
    requires Settled(q, keep, running, metas)
    ensures Aligned(q, keep, metas, metas, running)
  {
  }

  /** When nothing is left to do, what runs is exactly what is recorded. */
  lemma NothingTodo(q: Manifest, keep: set<string>, running: Metas, metas: Metas)
    requires Settled(q, keep, running, metas)
    requires metas.Keys == keep && forall x :: x in keep ==> Current(q, metas, x)
    ensures running == metas
  {
    forall x ensures Lookup(running, x) == Lookup(metas, x) {
    }
    forall x | x in running ensures x in metas && running[x] == metas[x] {
      assert Lookup(running, x) == Lookup(metas, x);
    }
    forall x | x in metas ensures x in running {
      assert Lookup(running, x) == Lookup(metas, x);
    }
  }
}

/** What holds over whole histories of operations: retries, crashes, and runs of successful ones. */
module AppsRuns {
  import opened Basics
  import opened DrvApi
  import opened DepGraph
  import opened AppsPlan
  import opened AppsControl

  // ---- Retrying one goal ------------------------------------------------------------------------

  /**
   One call of `Apply`; a crash shows as a failed call followed by a reload.  `faulty` says whether
   a call to the outside failed, and `known` which apps the maker knew.
   */
  datatype Attempt = Attempt(before: Scene, after: Scene, ok: bool, faulty: bool, known: set<string>)

  ghost predicate Honest(q: Manifest, g: Goal, a: Attempt) {
    && Travelled(q, g, a.before, a.after)
    && (a.ok ==> Arrived(q, g, a.before, a.after))
    && (Able(q, g, a.before.mem.metas, a.known) && !a.faulty ==> a.ok)
  }

  /** A restarted process knows what the store knows. */
  function Reloaded(s: Scene): Scene {
    s.(mem := s.saved)
  }

  ghost predicate Retries(q: Manifest, g: Goal, runs: seq<Attempt>) {
    && (forall i :: 0 <= i < |runs| ==> Honest(q, g, runs[i]))
    && (forall i, j :: 0 <= i && j == i + 1 && j < |runs| ==>
          runs[j].before == runs[i].after || runs[j].before == Reloaded(runs[i].after))
  }

  ghost predicate OnCourse(q: Manifest, g: Goal, st0: Snapshot, s: Scene) {
    && Reached(q, g, st0, s.mem) && Reached(q, g, st0, s.saved)
    && InLine(q, g, s)
  }

  lemma AttemptKeepsCourse(q: Manifest, g: Goal, st0: Snapshot, a: Attempt)
    requires g == GoalOf(q, g.anchors) && Honest(q, g, a) && OnCourse(q, g, st0, a.before)
    ensures OnCourse(q, g, st0, a.after)
  {
    ReachedTrans(q, g, st0, a.before.mem, a.after.mem);
    if a.after.saved != a.before.saved {
      ReachedTrans(q, g, st0, a.before.mem, a.after.saved);
    }
  }

  lemma ReloadKeepsCourse(q: Manifest, g: Goal, st0: Snapshot, s: Scene)
    requires OnCourse(q, g, st0, s)
    ensures OnCourse(q, g, st0, Reloaded(s))
  {
  }

  lemma {:induction false} RetriesKeepCourse(q: Manifest, g: Goal, runs: seq<Attempt>, i: nat)
    requires g == GoalOf(q, g.anchors) && Retries(q, g, runs) && i < |runs|
    requires OnCourse(q, g, runs[0].before.mem, runs[0].before)
    ensures OnCourse(q, g, runs[0].before.mem, runs[i].before)
    ensures OnCourse(q, g, runs[0].before.mem, runs[i].after)
  {
    var st0 := runs[0].before.mem;
    if i > 0 {
      RetriesKeepCourse(q, g, runs, i - 1);
      ReloadKeepsCourse(q, g, st0, runs[i - 1].after);
      assert runs[i].before == runs[i - 1].after || runs[i].before == Reloaded(runs[i - 1].after);
    }
    AttemptKeepsCourse(q, g, st0, runs[i]);
  }

  ghost predicate CleanStart(s: Scene) {
    s.mem == s.saved && s.running == s.mem.metas
  }

  /**
   However often a run was stopped by a failing change, a failing save or a crash, and however the
   retries were mixed with restarts: the one that succeeds leaves memory, the store and the running
   apps exactly as a single uninterrupted run would have.
   */
  lemma RetriesConverge(q: Manifest, g: Goal, runs: seq<Attempt>)
    requires g == GoalOf(q, g.anchors) && Retries(q, g, runs) && runs != []
    requires CleanStart(runs[0].before)
    ensures var goal := Applied(q, g, runs[0].before.mem);
      forall i :: 0 <= i < |runs| && runs[i].ok ==>
        runs[i].after.mem == goal && runs[i].after.saved == goal && runs[i].after.running == goal.metas
  {
    var st0 := runs[0].before.mem;
    forall i | 0 <= i < |runs| && runs[i].ok
      ensures runs[i].after.mem == Applied(q, g, st0) == runs[i].after.saved
      ensures runs[i].after.running == Applied(q, g, st0).metas
    {
      RetriesKeepCourse(q, g, runs, i);
      InterruptedRunHeadsTheSameWay(q, g, st0, runs[i].before.mem);
    }
  }

  /** A plan that could be made before the interruptions can still be made after them. */
  lemma RetriesStayPlannable(q: Manifest, g: Goal, runs: seq<Attempt>, i: nat)
    requires g == GoalOf(q, g.anchors) && Retries(q, g, runs) && i < |runs|
    requires CleanStart(runs[0].before)
    requires Plannable(q, g, runs[0].before.mem.metas) && NoDowngrade(q, g.keep, runs[0].before.mem.metas)
    ensures Plannable(q, g, runs[i].before.mem.metas) && NoDowngrade(q, g.keep, runs[i].before.mem.metas)
  {
    RetriesKeepCourse(q, g, runs, i);
    InterruptedRunHeadsTheSameWay(q, g, runs[0].before.mem, runs[i].before.mem);
  }

  /**
   Of the retries of a plan that was possible at first, the first in which no call fails gets
   there: however many faulty attempts came before, one faultless attempt is all it takes.
   */
  lemma FaultlessRetryArrives(q: Manifest, g: Goal, runs: seq<Attempt>, i: nat)
    requires g == GoalOf(q, g.anchors) && Retries(q, g, runs) && i < |runs|
    requires CleanStart(runs[0].before) && Able(q, g, runs[0].before.mem.metas, runs[i].known)
    requires !runs[i].faulty
    ensures var goal := Applied(q, g, runs[0].before.mem);
      runs[i].ok && runs[i].after.mem == runs[i].after.saved == goal && runs[i].after.running == goal.metas
  {
    RetriesStayPlannable(q, g, runs, i);
    RetriesConverge(q, g, runs);
  }

  /** An attempt only changes apps that were unfinished when it began. */
  lemma OnlyUnfinishedAppsChange(q: Manifest, g: Goal, a: Attempt, k: nat)
    requires Honest(q, g, a) && |a.before.points| <= k < |a.after.points|
    requires a.after.points[k].what.CallChange?
    ensures Todo(q, g.keep, a.before.mem.metas, a.after.points[k].what.change.name)
  {
  }

  lemma AttemptOnlyProgresses(q: Manifest, g: Goal, saved: Metas, a: Attempt)
    requires Honest(q, g, a)
    requires InProgress(q, g.keep, saved, a.before.mem.metas) && InProgress(q, g.keep, saved, a.before.saved.metas)
    ensures InProgress(q, g.keep, saved, a.after.mem.metas) && InProgress(q, g.keep, saved, a.after.saved.metas)
  {
    InProgressTrans(q, g.keep, saved, a.before.mem.metas, a.after.mem.metas);
    if a.after.saved != a.before.saved {
      InProgressTrans(q, g.keep, saved, a.before.mem.metas, a.after.saved.metas);
    }
  }

  lemma MemoryIsAhead(q: Manifest, g: Goal, s: Scene)
    requires InLine(q, g, s)
    ensures InProgress(q, g.keep, s.saved.metas, s.mem.metas)
    ensures InProgress(q, g.keep, s.saved.metas, s.saved.metas)
  {
  }

  /** The next attempt starts where the last one ended, or from what it saved. */
  lemma NextStartProgresses(q: Manifest, g: Goal, m: Metas, s: Scene, next: Scene)
    requires next == s || next == Reloaded(s)
    requires InProgress(q, g.keep, m, s.mem.metas) && InProgress(q, g.keep, m, s.saved.metas)
    ensures InProgress(q, g.keep, m, next.mem.metas) && InProgress(q, g.keep, m, next.saved.metas)
  {
  }

  lemma {:induction false} SavedOnlyProgresses(q: Manifest, g: Goal, runs: seq<Attempt>, i: nat, j: nat)
    requires Retries(q, g, runs) && i < j < |runs| && InLine(q, g, runs[i].after)
    ensures InProgress(q, g.keep, runs[i].after.saved.metas, runs[j].before.mem.metas)
    ensures InProgress(q, g.keep, runs[i].after.saved.metas, runs[j].before.saved.metas)
    decreases j
  {
    var m, k := runs[i].after.saved.metas, j - 1;
    assert runs[j].before == runs[k].after || runs[j].before == Reloaded(runs[k].after);
    if i < k {
      SavedOnlyProgresses(q, g, runs, i, k);
      assert Honest(q, g, runs[k]);
      AttemptOnlyProgresses(q, g, m, runs[k]);
    } else {
      MemoryIsAhead(q, g, runs[k].after);
    }
    NextStartProgresses(q, g, m, runs[k].after, runs[j].before);
  }

  /** The attempt's outside call at `k` is a change of `x`. */
  ghost predicate ChangesAt(a: Attempt, k: nat, x: string) {
    |a.before.points| <= k < |a.after.points| && IsChangeOf(a.after.points[k], x)
  }

  /**
   A successful attempt calls a change of an app to keep exactly if it was missing or differed from
   the manifest in version, semantic version or image; and of any other app exactly if it was there.
   */
  lemma ChangedExactlyIfOutOfDate(q: Manifest, g: Goal, a: Attempt, x: string)
    requires Honest(q, g, a) && a.ok && g == GoalOf(q, g.anchors)
    ensures x in g.keep ==> x in q
    ensures x in g.keep ==>
              ((exists k :: ChangesAt(a, k, x)) <==>
                 var metas := a.before.mem.metas;
                 || x !in metas || metas[x].version != q[x].version
                 || metas[x].semVersion != q[x].semVersion || metas[x].image != q[x].image)
    ensures x !in g.keep ==> ((exists k :: ChangesAt(a, k, x)) <==> x in a.before.mem.metas)
  {
    forall k: nat | ChangesAt(a, k, x) ensures Todo(q, g.keep, a.before.mem.metas, x) {
      OnlyUnfinishedAppsChange(q, g, a, k);
    }
    if x in g.keep {
      TodoFieldByField(q, g.keep, a.before.mem.metas, x);
      TargetFieldByField(q, g, a.before.mem, x);
    }
    assert Logged(a.before, a.after, x);
    if Lookup(a.after.mem.metas, x) != Lookup(a.before.mem.metas, x) {
      var k :| |a.before.points| <= k < |a.after.points| && IsChangeOf(a.after.points[k], x);
      assert ChangesAt(a, k, x);
    }
  }

  /** Once the store has an app's change, no later attempt changes that app again. */
  lemma SavedChangesAreNotRepeated(q: Manifest, g: Goal, runs: seq<Attempt>, i: nat, j: nat, x: string)
    requires g == GoalOf(q, g.anchors) && Retries(q, g, runs) && i < j < |runs|
    requires CleanStart(runs[0].before)
    requires !Todo(q, g.keep, runs[i].after.saved.metas, x)
    ensures forall k: nat :: !ChangesAt(runs[j], k, x)
  {
    forall k: nat | ChangesAt(runs[j], k, x) ensures false {
      OnlyUnfinishedAppsChange(q, g, runs[j], k);
      RetriesKeepCourse(q, g, runs, i);
      SavedOnlyProgresses(q, g, runs, i, j);
      TodoBefore(q, g.keep, runs[i].after.saved.metas, runs[j].before.mem.metas, x);
    }
  }

  /** Applying the same anchors once more to a finished system calls no change at all. */
  lemma OneMoreApplyChangesNothing(q: Manifest, g: Goal, a: Attempt)
    requires g == GoalOf(q, a.before.mem.anchored) && Installed(q, a.before.mem) && Honest(q, g, a)
    ensures forall k :: |a.before.points| <= k < |a.after.points| ==> a.after.points[k].what.CallSave?
    ensures a.after.mem == a.before.mem && a.after.running == a.before.running
  {
    forall k | |a.before.points| <= k < |a.after.points| ensures a.after.points[k].what.CallSave? {
      if a.after.points[k].what.CallChange? {
        OnlyUnfinishedAppsChange(q, g, a, k);
      }
    }
    ProgressFromInstalledStays(q, g, a.before.mem, a.after.mem.metas);
    forall x ensures Lookup(a.after.running, x) == Lookup(a.before.running, x) {
      assert RunsAsBefore(q, g, a.before, a.after, x);
    }
    SameLookups(a.before.running, a.after.running);
  }

  lemma SameLookups(m0: Metas, m1: Metas)
    requires forall x :: Lookup(m1, x) == Lookup(m0, x)
    ensures m1 == m0
  {
    forall x ensures (x in m0 <==> x in m1) && (x in m0 ==> m0[x] == m1[x]) {
      assert Lookup(m1, x) == Lookup(m0, x);
    }
  }

  // ---- Operations that failed and were given up ------------------------------------------------

  /** After a failure that left at most one app apart, a success for another goal mends exactly what it touches. */
  lemma AnotherGoalMendsExactlyItsOwn(q: Manifest, g: Goal, s: Scene, a: Attempt) returns (x: string)
    requires ApartAtMostOnce(s.saved.metas, s.running)
    requires a.before == Reloaded(s) && Honest(q, g, a) && a.ok
    ensures AgreeExcept(s.saved.metas, s.running, x)
    ensures a.after.running == a.after.mem.metas <==>
              Lookup(s.running, x) == Lookup(s.saved.metas, x) || Todo(q, g.keep, s.saved.metas, x)
  {
    x :| AgreeExcept(s.saved.metas, s.running, x);
  }

  /** In general, wherever an attempt starts: what it mends is what it has something to do about. */
  lemma SuccessMendsExactly(q: Manifest, g: Goal, a: Attempt)
    requires Honest(q, g, a) && a.ok
    ensures a.after.running == a.after.mem.metas <==>
              forall x :: Lookup(a.before.running, x) == Lookup(a.before.mem.metas, x) ||
                          Todo(q, g.keep, a.before.mem.metas, x)
  {
  }

  /**
   The failing input: uninstalling the one app that is installed fails half-way and is given up.  An
   update to the anchors as they were then succeeds, and leaves the app as broken as it found it.
   */
  lemma AbandonedUninstall() returns (q: Manifest, down: Goal, up: Goal, a1: Attempt, a2: Attempt)
    ensures down == GoalOf(q, {}) && up == GoalOf(q, a1.before.mem.anchored)
    ensures CleanStart(a1.before) && Installed(q, a1.before.mem)
    ensures Honest(q, down, a1) && !a1.ok
    ensures a2.before == a1.after && Honest(q, up, a2) && a2.ok
    ensures a2.after.running != a2.after.mem.metas
  {
    var m := AppMeta("redis", [], 1, "7", "img", []);
    q := map["redis" := m];
    var st := Snapshot(q, {"redis"});
    assert ClosedUnderDeps(q, {}, {}) && ClosedUnderDeps(q, {}, {"redis"});
    NeedsIsLeast(q, {}, {}, {});
    NeedsIsLeast(q, {}, {"redis"}, {"redis"});
    NeedsHasRoots(q, {}, {"redis"});
    down, up := GoalOf(q, {}), GoalOf(q, {"redis"});
    var s0 := Scene(st, st, q, []);
    var call := Point(CallChange(AppChange("redis", Some(m), None)), st, st, q, {"redis"});
    var s1 := Scene(st, st, map[], [call]);
    var save := Point(CallSave(None), st, st, map[], {"redis"});
    var s2 := Scene(st, st, map[], [call, save]);
    a1, a2 := Attempt(s0, s1, false, true, {}), Attempt(s1, s2, true, false, {"redis"});
    assert GoodChange(q, down.keep, call.what.change, st.metas);
    assert AgreeExcept(map[], q, "redis");
    assert GoodPoint(q, down, s0, call);
    assert GoodPoint(q, up, s1, save);
  }

  /**
   A broken app that is installed blocks every operation, whatever its anchors: it cannot go, and
   nothing else can happen either.  What is broken is told by the walks below the app alone.
   */
  lemma BrokenAppBlocksEveryApply(q: Manifest, metas: Metas)
    ensures (exists x :: x in metas && Broken(q, {}, x)) <==>
              forall anchors: set<string> :: !Plannable(q, GoalOf(q, anchors), metas)
  {
    forall x | x in metas ensures Broken(q, {}, x) <==> !Resolves(q, {}, x) {
      ResolvesIffNotBroken(q, {}, x);
    }
    forall anchors: set<string> | exists x :: x in metas && Broken(q, {}, x)
      ensures !Plannable(q, GoalOf(q, anchors), metas)
    {
      PlannableMeansAllResolve(q, anchors, metas);
    }
    PlannableMeansAllResolve(q, {}, metas);
  }

  /**
   The failing input: an app that was installed under an older release and that the manifest no
   longer lists.  It is no anchor and nothing needs it, yet installing another app is refused.
   */
  lemma LeftoverApp() returns (q: Manifest, st: Snapshot, name: string)
    ensures Keyed(q) && Resolves(q, {}, name) && st.anchored == {}
    ensures st.metas != map[] && forall x :: x in st.metas ==> x !in q
    ensures !Plannable(q, GoalOf(q, st.anchored + {name}), st.metas)
  {
    name := "redis";
    q := map[name := AppMeta(name, [], 1, "7", "img", [])];
    st := Snapshot(map["gone" := AppMeta("gone", [], 1, "1", "old", [])], {});
    assert "gone" in st.metas && |"gone"| != |name|;
    ResolvesUnfold(q, {}, name);
    ResolvesUnfold(q, {}, "gone");
    PlannableMeansAllResolve(q, st.anchored + {name}, st.metas);
  }

  // ---- Runs of successful operations ----------------------------------------------------------

  datatype Op = Install(names: seq<string>) | Uninstall(names: seq<string>) | Update

  function NextAnchors(op: Op, anchored: set<string>): set<string> {
    match op
    case Install(names) => anchored + SetOf(names)
    case Uninstall(names) => anchored - SetOf(names)
    case Update => anchored
  }

  /** What the three operations ensure when they succeed. */
  ghost predicate Done(q: Manifest, op: Op, st: Snapshot, st': Snapshot) {
    var g := GoalOf(q, NextAnchors(op, st.anchored));
    && st' == Applied(q, g, st)
    && NoDowngrade(q, g.keep, st.metas)
    && (op.Uninstall? ==> Removable(op.names, st.anchored))
  }

  /** A history: one more state than operations, each under the manifest of its time. */
  ghost predicate History(qs: seq<Manifest>, ops: seq<Op>, sts: seq<Snapshot>) {
    && |qs| == |ops| && |sts| == |ops| + 1
    && forall i, j :: 0 <= i < |ops| && j == i + 1 ==> Done(qs[i], ops[i], sts[i], sts[j])
  }

  ghost function AnchorsAfter(ops: seq<Op>, anchored: set<string>): set<string> {
    if ops == [] then anchored
    else NextAnchors(ops[|ops| - 1], AnchorsAfter(ops[..|ops| - 1], anchored))
  }

  /** After every operation exactly the closure of the anchors is installed, at that manifest's versions. */
  lemma {:induction false} HistoryStaysInstalled(qs: seq<Manifest>, ops: seq<Op>, sts: seq<Snapshot>, i: nat)
    requires History(qs, ops, sts) && i < |ops|
    ensures Installed(qs[i], sts[i + 1])
    ensures forall x :: x in sts[i + 1].metas ==>
              && x in qs[i] && sts[i + 1].metas[x].version == qs[i][x].version
              && sts[i + 1].metas[x].semVersion == qs[i][x].semVersion
              && sts[i + 1].metas[x].image == qs[i][x].image
    ensures sts[i + 1].anchored == AnchorsAfter(ops[..i + 1], sts[0].anchored)
  {
    assert Done(qs[i], ops[i], sts[i], sts[i + 1]);
    AppliedIsInstalled(qs[i], GoalOf(qs[i], NextAnchors(ops[i], sts[i].anchored)), sts[i]);
    if i > 0 {
      HistoryStaysInstalled(qs, ops, sts, i - 1);
    }
    assert ops[..i + 1][..i] == ops[..i];
  }

  /** While an app stays installed its version never goes down. */
  lemma {:induction false} VersionsNeverDecrease(qs: seq<Manifest>, ops: seq<Op>, sts: seq<Snapshot>, x: string,
                                                 i: nat, j: nat)
    requires History(qs, ops, sts) && i <= j <= |ops|
    requires forall k :: i <= k <= j ==> x in sts[k].metas
    ensures sts[i].metas[x].version <= sts[j].metas[x].version
    decreases j
  {
    if i < j {
      VersionsNeverDecrease(qs, ops, sts, x, i, j - 1);
      assert Done(qs[j - 1], ops[j - 1], sts[j - 1], sts[j]);
      assert x in sts[j - 1].metas && x in sts[j].metas;
    }
  }

  /** Installing new names and taking them away again restores the state, metas and anchors alike. */
  lemma InstallThenUninstallRestores(q: Manifest, names: seq<string>, st0: Snapshot, st1: Snapshot, st2: Snapshot)
    requires Installed(q, st0) && SetOf(names) !! st0.anchored
    requires Done(q, Install(names), st0, st1) && Done(q, Uninstall(names), st1, st2)
    ensures st2 == st0
  {
  }

  // ---- From the operations to their histories --------------------------------------------------

  /** A call of `Apply` is an attempt in the sense of `Retries`, whatever it returns. */
  method AttemptOnce(apps: Apps, anchored: seq<string>) returns (r: Result<(), ApplyError>, ghost a: Attempt)
    requires apps.Valid()
    modifies apps`stubs, apps.state, apps.world
    ensures apps.Valid()
    ensures a == Attempt(old(apps.Now()), apps.Now(), r.Ok?, apps.world.faults > old(apps.world.faults), apps.Known())
    ensures Honest(apps.registry.manifest, GoalOf(apps.registry.manifest, SetOf(anchored)), a)
    ensures InSync(a.before) ==> ApartAtMostOnce(a.after.saved.metas, a.after.running)
  {
    ghost var before, faults := apps.Now(), apps.world.faults;
    r := apps.Apply(anchored);
    a := Attempt(before, apps.Now(), r.Ok?, apps.world.faults > faults, apps.Known());
  }

  /** Nothing about the operation itself stands in its way. */
  ghost predicate Possible(q: Manifest, op: Op, st: Snapshot, known: set<string>) {
    && Able(q, GoalOf(q, NextAnchors(op, st.anchored)), st.metas, known)
    && (op.Uninstall? ==> Removable(op.names, st.anchored))
  }

  lemma ArrivedIsDone(q: Manifest, op: Op, b: Scene, s: Scene)
    requires Arrived(q, GoalOf(q, NextAnchors(op, b.mem.anchored)), b, s)
    requires op.Uninstall? ==> Removable(op.names, b.mem.anchored)
    ensures Done(q, op, b.mem, s.mem) && s.saved == s.mem
    ensures s.running == s.mem.metas <==> Steady(q, GoalOf(q, NextAnchors(op, b.mem.anchored)), b)
    ensures CleanStart(b) ==> CleanStart(s)
  {
    if CleanStart(b) {
      AlignedWithItself(q, Keep(q, NextAnchors(op, b.mem.anchored)), b.mem.metas, b.running);
    }
  }

  /** A successful operation is a step of a history, in memory and in the store. */
  method Perform(apps: Apps, op: Op) returns (r: Result<(), ApplyError>)
    requires apps.Valid()
    modifies apps`stubs, apps.state, apps.world
    ensures apps.Valid()
    ensures r.Ok? ==> Done(apps.registry.manifest, op, old(apps.state.Value()), apps.state.Value())
    ensures r.Ok? ==> apps.world.saved == apps.state.Value()
    ensures r.Ok? && old(CleanStart(apps.Now())) ==> CleanStart(apps.Now())
    ensures r.Ok? ==>
              var q := apps.registry.manifest;
              (apps.world.running == apps.state.metas <==>
                 Steady(q, GoalOf(q, NextAnchors(op, old(apps.state.anchored))), old(apps.Now())))
    ensures Possible(apps.registry.manifest, op, old(apps.state.Value()), apps.Known()) ==>
              r.Ok? || apps.world.faults > old(apps.world.faults)
  {
    ghost var b := apps.Now();
    match op {
      case Install(names) => r := apps.Install(names);
      case Uninstall(names) => r := apps.Uninstall(names);
      case Update => r := apps.Update();
    }
    if r.Ok? {
      ArrivedIsDone(apps.registry.manifest, op, b, apps.Now());
    }
  }
}

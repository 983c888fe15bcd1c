/** jarvis/apps.go and jarvis/apps_state.go: the installed apps and the operations on them. */
module AppsControl {
  import opened Basics
  import opened DrvApi
  import opened DepGraph
  import opened AppClosures
  import opened AppsPlan
  import opened AppRegistries

  // ---- The world outside: the settings store and the running apps ---------------------------

  datatype AppStub = AppStub(name: string)

  datatype What = CallChange(change: AppChange) | CallSave(about: Option<string>)

  /** What memory, the store, the running apps and the stubs looked like just before an outside call. */
  datatype Point = Point(what: What, mem: Snapshot, saved: Snapshot, running: Metas, stubs: set<string>)

  ghost predicate ApartAtMostOnce(a: Metas, b: Metas) {
    exists name :: AgreeExcept(a, b, name)
  }

  /**
   The settings store and the containers.  Any call may fail: a failed save may or may not have
   reached the store, a failed change leaves its own app, and only that one, in any condition.
   */
  class World {
    var saved: Snapshot
    ghost var running: Metas
    ghost var points: seq<Point>
    ghost var faults: nat            // how many calls have failed

    constructor ()
      ensures saved == Snapshot(map[], {}) && running == map[] && points == [] && faults == 0
    {
      saved, running, points, faults := Snapshot(map[], {}), map[], [], 0;
    }

    method Change(stub: AppStub, from: Option<AppMeta>, to: Option<AppMeta>, ghost mem: Snapshot,
                  ghost stubs: set<string>)
      returns (ok: bool)
      modifies this
      ensures saved == old(saved)
      ensures points == old(points) +
                        [Point(CallChange(AppChange(stub.name, from, to)), mem, old(saved), old(running), stubs)]
      ensures ok ==> running == WithApp(old(running), stub.name, to)
      ensures AgreeExcept(running, old(running), stub.name)
      ensures faults == old(faults) + Fault(ok)
    {
      points := points + [Point(CallChange(AppChange(stub.name, from, to)), mem, saved, running, stubs)];
      ok := *;
      if ok {
        running := WithApp(running, stub.name, to);
      } else {
        ghost var wreck: Option<AppMeta> := *;
        running := WithApp(running, stub.name, wreck);
      }
      faults := faults + Fault(ok);
    }

    method Save(state: AppsState, ghost about: Option<string>, ghost stubs: set<string>) returns (ok: bool)
      modifies this
      ensures running == old(running)
      ensures points == old(points) + [Point(CallSave(about), state.Value(), old(saved), old(running), stubs)]
      ensures saved == old(saved) || saved == state.Value()
      ensures ok ==> saved == state.Value()
      ensures faults == old(faults) + Fault(ok)
    {
      points := points + [Point(CallSave(about), state.Value(), saved, running, stubs)];
      ok := *;
      var reached: bool := *;
      if ok || reached {
        saved := state.Copy();
      }
      faults := faults + Fault(ok);
    }

    method Load() returns (r: Option<AppsState>)
      modifies `faults
      ensures r.Some? ==> fresh(r.value) && r.value.Value() == saved
      ensures faults == old(faults) + Fault(r.Some?)
    {
      var ok: bool := *;
      faults := faults + Fault(ok);
      if !ok {
        return None;
      }
      var state := new AppsState(saved);
      return Some(state);
    }
  }

  // ---- The state in memory --------------------------------------------------------------------

  class AppsState {
    var metas: Metas
    var anchored: set<string>

    constructor (s: Snapshot)
      ensures Value() == s
    {
      metas, anchored := s.metas, s.anchored;
    }

    function Value(): Snapshot
      reads this
    {
      Snapshot(metas, anchored)
    }

    method Copy() returns (s: Snapshot)
      ensures s == Value()
    {
      s := Snapshot(metas, anchored);
    }

    method SetMeta(app: string, m: Option<AppMeta>)
      modifies `metas
      ensures metas == WithApp(old(metas), app, m)
    {
      if m == None {
        metas := metas - {app};
      } else {
        metas := metas[app := m.value];
      }
    }

    method Meta(app: string) returns (m: Option<AppMeta>)
      ensures m == Lookup(metas, app)
    {
      m := if app in metas then Some(metas[app]) else None;
    }

    /** The installed names, each once. */
    method List() returns (list: seq<string>)
      ensures SetOf(list) == metas.Keys && |list| == |metas.Keys|
    {
      list := ListOf(metas.Keys);
    }

    method SemVersions() returns (m: map<string, string>)
      ensures m == SemVersionsOf(metas)
      ensures m.Keys == metas.Keys && forall x :: x in metas ==> m[x] == metas[x].semVersion
    {
      m := map[];
      var todo := metas.Keys;
      while todo != {}
        invariant todo <= metas.Keys && m.Keys == metas.Keys - todo
        invariant forall x :: x in m ==> m[x] == metas[x].semVersion
        decreases todo
      {
        var name :| name in todo;
        m := m[name := metas[name].semVersion];
        todo := todo - {name};
      }
    }
  }

  /** Some enumeration of a set; no result below depends on which. */
  method ListOf(s: set<string>) returns (list: seq<string>)
    ensures SetOf(list) == s && |list| == |s|
  {
    list := [];
    var todo := s;
    while todo != {}
      invariant SetOf(list) + todo == s && SetOf(list) !! todo && |list| + |todo| == |s|
      decreases todo
    {
      var name :| name in todo;
      SetOfSnoc(list, name);
      list := list + [name];
      todo := todo - {name};
    }
  }

  method WithNames(anchored: set<string>, names: seq<string>) returns (s: set<string>)
    ensures s == anchored + SetOf(names)
  {
    s := anchored;
    for i := 0 to |names|
      invariant s == anchored + SetOf(names[..i])
    {
      assert names[..i + 1] == names[..i] + [names[i]];
      SetOfSnoc(names[..i], names[i]);
      s := s + {names[i]};
    }
    assert names[..|names|] == names;
  }

  /** Every name is an anchor, and none is named twice. */
  ghost predicate Removable(names: seq<string>, anchored: set<string>) {
    SetOf(names) <= anchored && NoRepeats(names)
  }

  /** A name given twice is refused the second time. */
  method WithoutNames(anchored: set<string>, names: seq<string>) returns (r: Result<set<string>, ApplyError>)
    ensures r.Ok? <==> Removable(names, anchored)
    ensures r.Ok? ==> r.value == anchored - SetOf(names)
    ensures r.Err? ==> r.error.NotAnchored? && r.error.name in names
  {
    var s := anchored;
    for i := 0 to |names|
      invariant s == anchored - SetOf(names[..i]) && Removable(names[..i], anchored)
    {
      assert names[i] in SetOf(names);
      if names[i] !in s {
        if names[i] in anchored {
          var j :| 0 <= j < i && names[..i][j] == names[i];
          assert names[j] == names[i];
        }
        return Err(NotAnchored(names[i]));
      }
      assert names[..i + 1] == names[..i] + [names[i]];
      SetOfSnoc(names[..i], names[i]);
      s := s - {names[i]};
    }
    assert names[..|names|] == names;
    return Ok(s);
  }

  // ---- Promises about one apply --------------------------------------------------------------

  datatype ApplyError =
    | KeepBroken(name: string, cause: AddError)
    | UninstallBroken(name: string, cause: AddError)
    | Downgrade(name: string, installed: int, wanted: int)
    | NoStub(name: string)
    | ChangeFailed(name: string)
    | SaveFailed
    | StateUnreadable
    | NotAnchored(name: string)
    | NotInstalled(name: string)

  /** The errors that report a call that failed. */
  predicate FromOutside(e: ApplyError) {
    e.ChangeFailed? || e.SaveFailed? || e.StateUnreadable?
  }

  /** Of the calls made, none failed, or just the last one, and then the error reports it. */
  ghost predicate Counted(r: Result<(), ApplyError>, before: nat, after: nat) {
    after == before + Fault(!(r.Err? && FromOutside(r.error)))
  }

  /** Memory, the store, what runs, and every outside call so far. */
  datatype Scene = Scene(mem: Snapshot, saved: Snapshot, running: Metas, points: seq<Point>)

  ghost predicate InSync(s: Scene) {
    s.mem.metas == s.saved.metas == s.running && s.saved.anchored == s.mem.anchored
  }

  ghost predicate InLine(q: Manifest, g: Goal, s: Scene) {
    Aligned(q, g.keep, s.mem.metas, s.saved.metas, s.running)
  }

  ghost predicate PointInSync(p: Point) {
    match p.what
    case CallChange(_) => p.saved.metas == p.mem.metas == p.running
    case CallSave(Some(name)) => p.mem.metas == p.running && AgreeExcept(p.saved.metas, p.running, name)
    case CallSave(None) => p.saved.metas == p.mem.metas == p.running
  }

  ghost predicate SavedOnTheWay(q: Manifest, g: Goal, b: Scene, saved: Snapshot) {
    saved == b.saved || Reached(q, g, b.mem, saved)
  }

  ghost predicate GoodPoint(q: Manifest, g: Goal, b: Scene, p: Point) {
    && Reached(q, g, b.mem, p.mem) && p.mem.metas.Keys <= p.stubs
    && SavedOnTheWay(q, g, b, p.saved)
    && (p.what.CallChange? ==> GoodChange(q, g.keep, p.what.change, p.mem.metas))
    && (InSync(b) ==> PointInSync(p))
    && (InLine(q, g, b) ==> Aligned(q, g.keep, p.mem.metas, p.saved.metas, p.running))
  }

  /** What runs agrees with memory, but for apps there is still something to do about. */
  ghost predicate Steady(q: Manifest, g: Goal, s: Scene) {
    Settled(q, g.keep, s.running, s.mem.metas)
  }

  ghost predicate RunsAsBefore(q: Manifest, g: Goal, b: Scene, s: Scene, x: string) {
    Lookup(s.running, x) == Lookup(b.running, x) || Todo(q, g.keep, b.mem.metas, x)
  }

  /** What runs only changes where there was something to do, and what agreed still agrees. */
  ghost predicate SystemKept(q: Manifest, g: Goal, b: Scene, s: Scene) {
    && (forall x :: RunsAsBefore(q, g, b, s, x))
    && (Steady(q, g, b) ==> Steady(q, g, s))
  }

  /** The outside call is a change of `x`. */
  predicate IsChangeOf(p: Point, x: string) {
    p.what.CallChange? && p.what.change.name == x
  }

  ghost predicate ChangeLogged(points: seq<Point>, from: nat, x: string) {
    exists k :: from <= k < |points| && IsChangeOf(points[k], x)
  }

  /** Memory only differs about `x` if a change of it was called. */
  ghost predicate Logged(b: Scene, s: Scene, x: string) {
    Lookup(s.mem.metas, x) == Lookup(b.mem.metas, x) || ChangeLogged(s.points, |b.points|, x)
  }

  ghost predicate ChangesLogged(b: Scene, s: Scene) {
    forall x :: Logged(b, s, x)
  }

  lemma LogGrows(points: seq<Point>, p: Point, from: nat, x: string)
    requires from <= |points|
    ensures ChangeLogged(points, from, x) ==> ChangeLogged(points + [p], from, x)
    ensures IsChangeOf(p, x) ==> ChangeLogged(points + [p], from, x)
  {
    if ChangeLogged(points, from, x) {
      var k :| from <= k < |points| && IsChangeOf(points[k], x);
      assert (points + [p])[k] == points[k];
    }
    assert (points + [p])[|points|] == p;
  }

  lemma LogKept(b: Scene, s: Scene, s': Scene, p: Point)
    requires ChangesLogged(b, s) && |b.points| <= |s.points| && s'.points == s.points + [p]
    requires s'.mem.metas == s.mem.metas
    ensures ChangesLogged(b, s')
  {
    forall x ensures Logged(b, s', x) {
      assert Logged(b, s, x);
      LogGrows(s.points, p, |b.points|, x);
    }
  }

  lemma LogKeptByRecord(b: Scene, s: Scene, s': Scene, p: Point, c: AppChange)
    requires ChangesLogged(b, s) && |b.points| <= |s.points| && s'.points == s.points + [p]
    requires s'.mem.metas == WithApp(s.mem.metas, c.name, c.to) && ChangeLogged(s.points, |b.points|, c.name)
    ensures ChangesLogged(b, s')
  {
    forall x ensures Logged(b, s', x) {
      assert Logged(b, s, x);
      LogGrows(s.points, p, |b.points|, x);
    }
  }

  lemma OneMorePoint(q: Manifest, g: Goal, b: Scene, points: seq<Point>, p: Point)
    requires GoodPoints(q, g, b, points) && GoodPoint(q, g, b, p)
    ensures GoodPoints(q, g, b, points + [p])
  {
  }

  ghost predicate GoodPoints(q: Manifest, g: Goal, b: Scene, points: seq<Point>) {
    && |b.points| <= |points|
    && forall i :: |b.points| <= i < |points| ==> GoodPoint(q, g, b, points[i])
  }

  /** Everything between `b` and `s` was good, and `s` is on the way from `b` to its goal. */
  ghost predicate Travelled(q: Manifest, g: Goal, b: Scene, s: Scene) {
    && Reached(q, g, b.mem, s.mem)
    && SavedOnTheWay(q, g, b, s.saved)
    && (InLine(q, g, b) ==> InLine(q, g, s))
    && SystemKept(q, g, b, s) && ChangesLogged(b, s)
    && GoodPoints(q, g, b, s.points)
  }

  /**
   Memory and the store are where the goal says, and so is what runs, exactly if it only stood apart
   from memory where there was something to do.
   */
  ghost predicate Arrived(q: Manifest, g: Goal, b: Scene, s: Scene) {
    && s.mem == s.saved == Applied(q, g, b.mem)
    && (s.running == s.mem.metas <==> Steady(q, g, b))
    && NoDowngrade(q, g.keep, b.mem.metas)
  }

  lemma KeptAsItIs(q: Manifest, g: Goal, b: Scene, s: Scene, s': Scene)
    requires SystemKept(q, g, b, s) && s'.mem.metas == s.mem.metas && s'.running == s.running
    ensures SystemKept(q, g, b, s')
  {
    forall x ensures RunsAsBefore(q, g, b, s', x) {
      assert RunsAsBefore(q, g, b, s, x);
    }
  }

  lemma KeptAfterCall(q: Manifest, g: Goal, b: Scene, s: Scene, s': Scene, c: AppChange)
    requires SystemKept(q, g, b, s) && InProgress(q, g.keep, b.mem.metas, s.mem.metas)
    requires GoodChange(q, g.keep, c, s.mem.metas)
    requires s'.mem == s.mem && AgreeExcept(s'.running, s.running, c.name)
    ensures SystemKept(q, g, b, s')
  {
    TodoBefore(q, g.keep, b.mem.metas, s.mem.metas, c.name);
    forall x ensures RunsAsBefore(q, g, b, s', x) {
      assert RunsAsBefore(q, g, b, s, x);
    }
  }

  lemma KeptAfterRecord(q: Manifest, g: Goal, b: Scene, s: Scene, s': Scene, c: AppChange)
    requires SystemKept(q, g, b, s) && Lookup(s.running, c.name) == c.to
    requires s'.mem.metas == WithApp(s.mem.metas, c.name, c.to) && s'.running == s.running
    ensures SystemKept(q, g, b, s')
  {
    forall x ensures RunsAsBefore(q, g, b, s', x) {
      assert RunsAsBefore(q, g, b, s, x);
    }
  }

  /** Where nothing was to do nothing has moved, so what was apart there is apart in the end. */
  lemma MendedExactlyIfSteady(q: Manifest, g: Goal, b: Scene, s: Scene)
    requires SystemKept(q, g, b, s) && s.mem.metas == Applied(q, g, b.mem).metas && g == GoalOf(q, g.anchors)
    ensures s.running == s.mem.metas <==> Steady(q, g, b)
  {
    AppliedIsInstalled(q, g, b.mem);
    if Steady(q, g, b) {
      NothingTodo(q, g.keep, s.running, s.mem.metas);
    }
    forall x | s.running == s.mem.metas && !Todo(q, g.keep, b.mem.metas, x)
      ensures Lookup(b.running, x) == Lookup(b.mem.metas, x)
    {
      assert RunsAsBefore(q, g, b, s, x);
      assert Lookup(s.mem.metas, x) == Lookup(b.mem.metas, x);
    }
  }

  /** Calling a change, however it ends. */
  lemma CallIsGood(q: Manifest, g: Goal, b: Scene, s: Scene, c: AppChange, running': Metas, stubs: set<string>)
    requires Travelled(q, g, b, s) && (InSync(b) ==> InSync(s))
    requires GoodChange(q, g.keep, c, s.mem.metas) && s.mem.metas.Keys <= stubs
    requires AgreeExcept(running', s.running, c.name)
    ensures var p := Point(CallChange(c), s.mem, s.saved, s.running, stubs);
      Travelled(q, g, b, Scene(s.mem, s.saved, running', s.points + [p])) &&
      ChangeLogged(s.points + [p], |b.points|, c.name)
  {
    if InLine(q, g, b) {
      AlignedAfterCall(q, g.keep, s.mem.metas, s.saved.metas, s.running, running', c.name);
    }
    var p := Point(CallChange(c), s.mem, s.saved, s.running, stubs);
    var s' := Scene(s.mem, s.saved, running', s.points + [p]);
    KeptAfterCall(q, g, b, s, s', c);
    LogKept(b, s, s', p);
    LogGrows(s.points, p, |b.points|, c.name);
    assert GoodPoint(q, g, b, Point(CallChange(c), s.mem, s.saved, s.running, stubs));
  }

  /** A finished change in memory, with the store and what runs as they were. */
  lemma RecordStaysInLine(q: Manifest, g: Goal, b: Scene, s: Scene, c: AppChange, saved': Snapshot)
    requires InLine(q, g, s) && GoodChange(q, g.keep, c, s.mem.metas) && Lookup(s.running, c.name) == c.to
    requires saved' == s.saved || saved' == Snapshot(WithApp(s.mem.metas, c.name, c.to), s.mem.anchored)
    ensures Aligned(q, g.keep, WithApp(s.mem.metas, c.name, c.to), s.saved.metas, s.running)
    ensures Aligned(q, g.keep, WithApp(s.mem.metas, c.name, c.to), saved'.metas, s.running)
  {
    AlignedAfterChange(q, g.keep, s.mem.metas, s.saved.metas, s.running, c);
    AlignedWithItself(q, g.keep, WithApp(s.mem.metas, c.name, c.to), s.running);
  }

  /** Recording a finished change in memory, and handing memory to the store. */
  lemma RecordIsGood(q: Manifest, g: Goal, b: Scene, s: Scene, c: AppChange, saved': Snapshot,
                     stubs: set<string>)
    requires Travelled(q, g, b, s) && s.mem.anchored == b.mem.anchored
    requires GoodChange(q, g.keep, c, s.mem.metas) && Lookup(s.running, c.name) == c.to
    requires InSync(b) ==> s.saved == s.mem && s.running == WithApp(s.mem.metas, c.name, c.to)
    requires saved' == s.saved || saved' == Snapshot(WithApp(s.mem.metas, c.name, c.to), s.mem.anchored)
    requires WithApp(s.mem.metas, c.name, c.to).Keys <= stubs && ChangeLogged(s.points, |b.points|, c.name)
    ensures var mem' := Snapshot(WithApp(s.mem.metas, c.name, c.to), s.mem.anchored);
      var p := Point(CallSave(Some(c.name)), mem', s.saved, s.running, stubs);
      Travelled(q, g, b, Scene(mem', saved', s.running, s.points + [p]))
  {
    var mem' := Snapshot(WithApp(s.mem.metas, c.name, c.to), s.mem.anchored);
    var p := Point(CallSave(Some(c.name)), mem', s.saved, s.running, stubs);
    var s' := Scene(mem', saved', s.running, s.points + [p]);
    assert Reached(q, g, b.mem, mem') by {
      GoodChangeIsProgress(q, g.keep, b.mem.metas, s.mem.metas, c);
    }
    assert InLine(q, g, b) ==>
        InLine(q, g, s') && Aligned(q, g.keep, mem'.metas, s.saved.metas, s.running) by {
      if InLine(q, g, b) {
        RecordStaysInLine(q, g, b, s, c, saved');
      }
    }
    KeptAfterRecord(q, g, b, s, s', c);
    LogKeptByRecord(b, s, s', p, c);
    assert GoodPoint(q, g, b, p);
    OneMorePoint(q, g, b, s.points, p);
  }

  /** The last save, which records the anchors. */
  lemma AnchorsAreGood(q: Manifest, g: Goal, b: Scene, s: Scene, saved': Snapshot, stubs: set<string>)
    requires Travelled(q, g, b, s) && (InSync(b) ==> InSync(s))
    requires s.mem.metas.Keys == g.keep && forall x :: x in g.keep ==> Current(q, s.mem.metas, x)
    requires Applied(q, g, b.mem) == Snapshot(s.mem.metas, g.anchors)
    requires saved' == s.saved || saved' == Applied(q, g, b.mem)
    requires s.mem.metas.Keys <= stubs && g == GoalOf(q, g.anchors)
    ensures var mem' := Applied(q, g, b.mem);
      var p := Point(CallSave(None), mem', s.saved, s.running, stubs);
      Travelled(q, g, b, Scene(mem', saved', s.running, s.points + [p]))
    ensures s.running == s.mem.metas <==> Steady(q, g, b)
  {
    MendedExactlyIfSteady(q, g, b, s);
    var p := Point(CallSave(None), Applied(q, g, b.mem), s.saved, s.running, stubs);
    var s' := Scene(Applied(q, g, b.mem), saved', s.running, s.points + [p]);
    KeptAsItIs(q, g, b, s, s');
    LogKept(b, s, s', p);
    if InLine(q, g, b) {
      NothingTodo(q, g.keep, s.running, s.mem.metas);
      AlignedWithItself(q, g.keep, s.mem.metas, s.mem.metas);
    }
    assert GoodPoint(q, g, b, Point(CallSave(None), Applied(q, g, b.mem), s.saved, s.running, stubs));
  }

  // ---- The closures an apply works from ------------------------------------------------------

  ghost predicate FloorsOf(q: Manifest, ignore: set<string>, names: set<string>,
                           floors: seq<seq<AppMeta>>, floorMap: map<string, nat>) {
    && Placed(q, ignore, floorMap) && LaidOut(q, floors, floorMap)
    && floorMap.Keys == names
  }

  ghost function NamesOn(floor: seq<AppMeta>): set<string> {
    set m | m in floor :: m.name
  }

  lemma OthersStayCurrent(q: Manifest, keep: set<string>, metas: Metas, name: string)
    requires name !in keep && forall x :: x in keep ==> Current(q, metas, x)
    ensures forall x :: x in keep ==> Current(q, metas - {name}, x)
  {
  }

  lemma OneMoreGone(metas: Metas, floor: seq<AppMeta>, j: nat)
    requires j < |floor|
    ensures metas - NamesOn(floor[..j]) - {floor[j].name} == metas - NamesOn(floor[..j + 1])
  {
  }

  /** Whatever was current still is. */
  ghost predicate StillCurrent(q: Manifest, m0: Metas, m1: Metas) {
    forall x :: Current(q, m0, x) ==> Current(q, m1, x)
  }

  ghost predicate DepsAreCurrent(q: Manifest, metas: Metas, floor: seq<AppMeta>) {
    forall m, d :: m in floor && d in m.deps ==> Current(q, metas, d)
  }

  ghost predicate CurrentUpTo(q: Manifest, metas: Metas, floor: seq<AppMeta>, n: nat) {
    forall k :: 0 <= k < n && k < |floor| ==> Current(q, metas, floor[k].name)
  }

  lemma OneMoreCurrent(q: Manifest, start: Metas, m0: Metas, m1: Metas, floor: seq<AppMeta>, j: nat)
    requires j < |floor| && StillCurrent(q, start, m0) && StillCurrent(q, m0, m1)
    requires DepsAreCurrent(q, m0, floor) && CurrentUpTo(q, m0, floor, j) && Current(q, m1, floor[j].name)
    ensures StillCurrent(q, start, m1)
    ensures DepsAreCurrent(q, m1, floor) && CurrentUpTo(q, m1, floor, j + 1)
  {
  }

  /** Every app below floor `f` is current. */
  ghost predicate CurrentBelow(q: Manifest, metas: Metas, floorMap: map<string, nat>, f: int) {
    forall x :: x in floorMap && floorMap[x] < f ==> Current(q, metas, x)
  }

  /** What an app depends on sits below it, so it has been brought up before. */
  lemma FloorIsReady(q: Manifest, names: set<string>, floors: seq<seq<AppMeta>>, floorMap: map<string, nat>,
                     metas: Metas, f: nat)
    requires FloorsOf(q, {}, names, floors, floorMap) && f < |floors|
    requires CurrentBelow(q, metas, floorMap, f)
    ensures forall m :: m in floors[f] ==> m.name in names && Lookup(q, m.name) == Some(m)
    ensures DepsAreCurrent(q, metas, floors[f])
  {
    forall m | m in floors[f]
      ensures m.name in names && Lookup(q, m.name) == Some(m)
      ensures forall d :: d in m.deps ==> Current(q, metas, d)
    {
      var i :| 0 <= i < |floors[f]| && floors[f][i] == m;
      assert Sits(q, floorMap, floors[f][i], f);
      forall d | d in m.deps ensures Current(q, metas, d) {
        assert Edge(q, {}, m.name, d);
        DepIsLower(q, {}, m.name, d);
        assert d in floorMap;
      }
    }
  }

  lemma FloorIsDone(q: Manifest, ignore: set<string>, names: set<string>, floors: seq<seq<AppMeta>>,
                    floorMap: map<string, nat>, metas: Metas, f: nat)
    requires Keyed(q) && FloorsOf(q, ignore, names, floors, floorMap) && f < |floors|
    requires CurrentBelow(q, metas, floorMap, f)
    requires CurrentUpTo(q, metas, floors[f], |floors[f]|)
    ensures CurrentBelow(q, metas, floorMap, f + 1)
  {
  }

  /** What is still installed beside the apps to keep sits below floor `f`. */
  ghost predicate LeftBelow(keep: set<string>, metas: Metas, floorMap: map<string, nat>, f: int) {
    forall x :: x in metas && x !in keep ==> x in floorMap && floorMap[x] < f
  }

  /** No app that is still there depends on one of the topmost floor. */
  lemma TopIsFree(q: Manifest, keep: set<string>, metas: Metas, floors: seq<seq<AppMeta>>,
                  floorMap: map<string, nat>, f: nat)
    requires FloorsOf(q, keep, floorMap.Keys, floors, floorMap) && f < |floors|
    requires ClosedUnderDeps(q, {}, keep)
    requires LeftBelow(keep, metas, floorMap, f + 1)
    ensures forall m :: m in floors[f] ==> m.name !in keep
    ensures forall m :: m in floors[f] ==> Free(q, metas, m.name)
  {
    forall m | m in floors[f]
      ensures m.name !in keep && Free(q, metas, m.name)
    {
      var i :| 0 <= i < |floors[f]| && floors[f][i] == m;
      assert Sits(q, floorMap, floors[f][i], f);
      forall y | y in metas ensures y in q && m.name !in q[y].deps {
        if y !in keep && m.name in q[y].deps {
          assert Edge(q, keep, y, m.name);
          DepIsLower(q, keep, y, m.name);
        }
      }
    }
  }

  lemma FloorIsGone(q: Manifest, keep: set<string>, metas: Metas, floors: seq<seq<AppMeta>>,
                    floorMap: map<string, nat>, f: nat)
    requires Keyed(q) && FloorsOf(q, keep, floorMap.Keys, floors, floorMap) && f < |floors|
    requires LeftBelow(keep, metas, floorMap, f + 1)
    ensures LeftBelow(keep, metas - NamesOn(floors[f]), floorMap, f)
  {
  }

  ghost predicate NotOlder(m: AppMeta, metas: Metas) {
    m.name in metas ==> SameAppVersion(metas[m.name], m) || metas[m.name].version <= m.version
  }

  ghost predicate WhyNoUpgrade(e: ApplyError, m: AppMeta, metas: Metas, known: set<string>) {
    match e
    case Downgrade(name, installed, wanted) =>
      && name == m.name && !NotOlder(m, metas)
      && installed == metas[name].version && wanted == m.version
    case NoStub(name) => name == m.name && name !in known
    case ChangeFailed(name) => name == m.name
    case SaveFailed => true
    case _ => false
  }

  ghost predicate WhyStopped(e: ApplyError, q: Manifest, g: Goal, b: Scene, known: set<string>) {
    match e
    case Downgrade(_, _, _) => !NoDowngrade(q, g.keep, b.mem.metas)
    case NoStub(name) => name in g.keep && name !in known
    case _ => FromOutside(e)
  }

  /** Nothing about the goal stands in the way: a plan can be made, and every step of it may be taken. */
  ghost predicate Able(q: Manifest, g: Goal, metas: Metas, known: set<string>) {
    Plannable(q, g, metas) && NoDowngrade(q, g.keep, metas) && g.keep <= known
  }

  /** Progress never lowers a version, so what blocks an upgrade now blocked it from the start. */
  lemma StoppedBecause(e: ApplyError, q: Manifest, g: Goal, b: Scene, metas: Metas, m: AppMeta,
                       known: set<string>)
    requires WhyNoUpgrade(e, m, metas, known)
    requires m.name in g.keep && Lookup(q, m.name) == Some(m)
    requires InProgress(q, g.keep, b.mem.metas, metas)
    ensures WhyStopped(e, q, g, b, known)
  {
  }

  lemma StandingStillIsFine(q: Manifest, g: Goal, b: Scene)
    ensures Travelled(q, g, b, b)
    ensures InSync(b) ==> ApartAtMostOnce(b.saved.metas, b.running)
  {
    assert InSync(b) ==> AgreeExcept(b.saved.metas, b.running, "");
  }

  // ---- The operations ---------------------------------------------------------------------------

  class Apps {
    const state: AppsState
    var stubs: map<string, AppStub>
    const world: World
    const registry: AppRegistry
    var maker: Option<set<string>>   // the names the app maker knows, once it is set

    ghost predicate Valid()
      reads this, state, registry
    {
      && registry.Valid()
      && state.metas.Keys <= stubs.Keys
      && forall x :: x in stubs ==> stubs[x].name == x
    }

    ghost function Now(): Scene
      reads state, world
    {
      Scene(state.Value(), world.saved, world.running, world.points)
    }

    constructor (state: AppsState, world: World, registry: AppRegistry)
      ensures this.state == state && this.world == world && this.registry == registry
      ensures maker == None && stubs == map[]
    {
      this.state, this.world, this.registry := state, world, registry;
      stubs, maker := map[], None;
    }

    /** Memory starts as what the store holds, if the store can be read. */
    static method Open(world: World, registry: AppRegistry) returns (r: Result<Apps, ApplyError>)
      modifies world`faults
      ensures r.Ok? ==> fresh(r.value) && fresh(r.value.state)
      ensures r.Ok? ==> r.value.world == world && r.value.registry == registry
      ensures r.Ok? ==> r.value.maker == None && r.value.stubs == map[] && r.value.state.Value() == world.saved
      ensures r.Err? ==> r.error == StateUnreadable
      ensures world.faults == old(world.faults) + Fault(r.Ok?)
    {
      var loaded := world.Load();
      if loaded == None {
        return Err(StateUnreadable);
      }
      var apps := new Apps(loaded.value, world, registry);
      return Ok(apps);
    }

    /** The names the app maker knows; none before it is set. */
    ghost function Known(): set<string>
      reads this
    {
      match maker
      case Some(names) => names
      case None => {}
    }

    /** From here on every installed app has a stub, unless the maker does not know it. */
    method SetMaker(names: set<string>) returns (r: Result<(), ApplyError>)
      requires registry.Valid() && forall x :: x in stubs ==> stubs[x].name == x
      modifies this
      ensures maker == Some(names)
      ensures r.Ok? ==> Valid()
      ensures r.Ok? <==> state.metas.Keys <= names
    {
      maker := Some(names);
      var list := state.List();
      for i := 0 to |list|
        invariant maker == Some(names)
        invariant SetOf(list[..i]) <= stubs.Keys && SetOf(list[..i]) <= names
        invariant forall x :: x in stubs ==> stubs[x].name == x
      {
        assert SetOf(list[..i + 1]) == SetOf(list[..i]) + {list[i]} by {
          assert list[..i + 1] == list[..i] + [list[i]];
        }
        if list[i] !in names {
          assert list[i] in SetOf(list);
          return Err(NoStub(list[i]));
        }
        stubs := stubs[list[i] := AppStub(list[i])];
      }
      assert list[..|list|] == list;
      return Ok(());
    }

    method StubOrMake(name: string) returns (r: Result<AppStub, ApplyError>)
      requires forall x :: x in stubs ==> stubs[x].name == x
      modifies `stubs
      ensures r.Ok? <==> name in old(stubs) || (maker.Some? && name in maker.value)
      ensures r.Ok? ==> r.value == AppStub(name) && stubs == old(stubs)[name := r.value]
      ensures r.Err? ==> r.error == NoStub(name) && stubs == old(stubs)
    {
      if name in stubs {
        return Ok(stubs[name]);
      }
      if maker == None || name !in maker.value {
        return Err(NoStub(name));
      }
      var stub := AppStub(name);
      stubs := stubs[name := stub];
      return Ok(stub);
    }

    // ---- The invariant of a run: everything so far is on the way from `b` -----------------------

    ghost predicate OnTheWay(g: Goal, b: Scene)
      reads this, state, world, registry
    {
      && Valid()
      && Travelled(registry.manifest, g, b, Now())
      && state.anchored == b.mem.anchored
    }

    ghost predicate StillInSync(b: Scene)
      reads state, world
    {
      InSync(b) ==> InSync(Now())
    }

    ghost predicate NearlyInSync(b: Scene)
      reads world
    {
      InSync(b) ==> ApartAtMostOnce(world.saved.metas, world.running)
    }

    /** Changes one app, then memory, then the store: the part installing and uninstalling share. */
    method Commit(app: AppStub, from: Option<AppMeta>, to: Option<AppMeta>, ghost g: Goal, ghost b: Scene)
      returns (r: Result<(), ApplyError>)
      requires OnTheWay(g, b) && StillInSync(b)
      requires GoodChange(registry.manifest, g.keep, AppChange(app.name, from, to), state.metas)
      requires to.Some? ==> app.name in stubs
      modifies state, world
      ensures OnTheWay(g, b)
      ensures Counted(r, old(world.faults), world.faults)
      ensures r.Ok? ==> StillInSync(b) && state.metas == WithApp(old(state.metas), app.name, to)
      ensures r.Err? ==> NearlyInSync(b) && (r.error == ChangeFailed(app.name) || r.error == SaveFailed)
    {
      ghost var q, c, s := registry.manifest, AppChange(app.name, from, to), Now();
      var ok := world.Change(app, from, to, state.Value(), stubs.Keys);
      CallIsGood(q, g, b, s, c, world.running, stubs.Keys);
      s := Now();
      if !ok {
        assert InSync(b) ==> AgreeExcept(world.saved.metas, world.running, app.name);
        return Err(ChangeFailed(app.name));
      }
      state.SetMeta(app.name, to);
      ok := world.Save(state, Some(app.name), stubs.Keys);
      RecordIsGood(q, g, b, s, c, world.saved, stubs.Keys);
      assert InSync(b) ==> AgreeExcept(world.saved.metas, world.running, app.name);
      if !ok {
        return Err(SaveFailed);
      }
      return Ok(());
    }

    /** Brings one app of the keep closure up. */
    method Upgrade(m: AppMeta, ghost g: Goal, ghost b: Scene) returns (r: Result<(), ApplyError>)
      requires OnTheWay(g, b) && StillInSync(b)
      requires m.name in g.keep && Lookup(registry.manifest, m.name) == Some(m)
      requires forall d :: d in m.deps ==> Current(registry.manifest, state.metas, d)
      modifies `stubs, state, world
      ensures OnTheWay(g, b)
      ensures Counted(r, old(world.faults), world.faults)
      ensures r.Ok? ==> StillInSync(b) && Current(registry.manifest, state.metas, m.name)
      ensures r.Ok? ==> StillCurrent(registry.manifest, old(state.metas), state.metas)
      ensures r.Ok? && old(Current(registry.manifest, state.metas, m.name)) ==> world.points == old(world.points)
      ensures r.Ok? ==> NotOlder(m, old(state.metas))
      ensures r.Err? ==> NearlyInSync(b) && WhyNoUpgrade(r.error, m, old(state.metas), Known())
    {
      var name := m.name;
      var installed := state.Meta(name);
      if installed.Some? {
        if SameAppVersion(installed.value, m) {
          return Ok(());
        }
        if installed.value.version > m.version {
          assert InSync(b) ==> AgreeExcept(world.saved.metas, world.running, name);
          return Err(Downgrade(name, installed.value.version, m.version));
        }
      }
      var app := StubOrMake(name);
      if app.Err? {
        assert InSync(b) ==> AgreeExcept(world.saved.metas, world.running, name);
        return Err(app.error);
      }
      r := Commit(app.value, installed, Some(m), g, b);
    }

    method Stub(name: string) returns (r: Result<AppStub, ApplyError>)
      ensures r == if name in stubs then Ok(stubs[name]) else Err(NoStub(name))
    {
      if name in stubs {
        return Ok(stubs[name]);
      }
      return Err(NoStub(name));
    }

    /** Takes one app of the uninstall closure down, if it is there at all. */
    method Remove(m: AppMeta, ghost g: Goal, ghost b: Scene) returns (r: Result<(), ApplyError>)
      requires OnTheWay(g, b) && StillInSync(b)
      requires m.name !in g.keep
      requires Free(registry.manifest, state.metas, m.name)
      requires forall x :: x in g.keep ==> Current(registry.manifest, state.metas, x)
      modifies `stubs, state, world
      ensures OnTheWay(g, b)
      ensures Counted(r, old(world.faults), world.faults)
      ensures r.Ok? ==> StillInSync(b) && state.metas == old(state.metas) - {m.name}
      ensures r.Ok? && m.name in old(state.metas) ==> stubs.Keys == old(stubs.Keys) - {m.name}
      ensures r.Ok? ==> forall x :: x in g.keep ==> Current(registry.manifest, state.metas, x)
      ensures r.Err? ==> NearlyInSync(b) && FromOutside(r.error)
    {
      var name := m.name;
      var installed := state.Meta(name);
      if installed == None {
        assert state.metas - {name} == state.metas;
        return Ok(());
      }
      var app := Stub(name);
      assert GoodChange(registry.manifest, g.keep, AppChange(name, installed, None), state.metas);
      r := Commit(app.value, installed, None, g, b);
      if r.Ok? {
        OthersStayCurrent(registry.manifest, g.keep, old(state.metas), name);
        stubs := stubs - {name};
      }
    }

    /** Floor by floor upward. */
    method UpgradeFloors(floors: seq<seq<AppMeta>>, ghost floorMap: map<string, nat>,
                         ghost g: Goal, ghost b: Scene)
      returns (r: Result<(), ApplyError>)
      requires OnTheWay(g, b) && StillInSync(b)
      requires FloorsOf(registry.manifest, {}, g.keep, floors, floorMap)
      modifies `stubs, state, world
      ensures OnTheWay(g, b)
      ensures Counted(r, old(world.faults), world.faults)
      ensures r.Ok? ==> StillInSync(b)
      ensures r.Ok? ==> forall x :: x in g.keep ==> Current(registry.manifest, state.metas, x)
      ensures r.Err? ==> NearlyInSync(b) && WhyStopped(r.error, registry.manifest, g, b, Known())
    {
      ghost var q, keep := registry.manifest, g.keep;
      for f := 0 to |floors|
        invariant OnTheWay(g, b) && StillInSync(b) && world.faults == old(world.faults)
        invariant CurrentBelow(q, state.metas, floorMap, f)
      {
        FloorIsReady(q, keep, floors, floorMap, state.metas, f);
        r := UpgradeFloor(floors[f], g, b);
        if r.Err? {
          return;
        }
        FloorIsDone(q, {}, keep, floors, floorMap, state.metas, f);
      }
      return Ok(());
    }

    /** One floor: none of its apps depends on another of them. */
    method UpgradeFloor(floor: seq<AppMeta>, ghost g: Goal, ghost b: Scene)
      returns (r: Result<(), ApplyError>)
      requires OnTheWay(g, b) && StillInSync(b)
      requires forall m :: m in floor ==> m.name in g.keep && Lookup(registry.manifest, m.name) == Some(m)
      requires DepsAreCurrent(registry.manifest, state.metas, floor)
      modifies `stubs, state, world
      ensures OnTheWay(g, b)
      ensures Counted(r, old(world.faults), world.faults)
      ensures r.Ok? ==> StillInSync(b)
      ensures r.Ok? ==> CurrentUpTo(registry.manifest, state.metas, floor, |floor|)
      ensures r.Ok? ==> StillCurrent(registry.manifest, old(state.metas), state.metas)
      ensures r.Err? ==> NearlyInSync(b) && WhyStopped(r.error, registry.manifest, g, b, Known())
    {
      ghost var start := state.metas;
      for j := 0 to |floor|
        invariant OnTheWay(g, b) && StillInSync(b) && world.faults == old(world.faults)
        invariant DepsAreCurrent(registry.manifest, state.metas, floor)
        invariant CurrentUpTo(registry.manifest, state.metas, floor, j)
        invariant StillCurrent(registry.manifest, start, state.metas)
      {
        ghost var metas0 := state.metas;
        assert floor[j] in floor;
        r := Upgrade(floor[j], g, b);
        if r.Err? {
          StoppedBecause(r.error, registry.manifest, g, b, metas0, floor[j], Known());
          return;
        }
        OneMoreCurrent(registry.manifest, start, metas0, state.metas, floor, j);
      }
      return Ok(());
    }

    /** Floor by floor downward; `rev` lists the floors of the uninstall closure from the top. */
    method RemoveFloors(rev: seq<seq<AppMeta>>, ghost floors: seq<seq<AppMeta>>, ghost floorMap: map<string, nat>,
                        ghost g: Goal, ghost b: Scene)
      returns (r: Result<(), ApplyError>)
      requires OnTheWay(g, b) && StillInSync(b)
      requires |rev| == |floors| && forall i :: 0 <= i < |floors| ==> rev[|floors| - 1 - i] == floors[i]
      requires FloorsOf(registry.manifest, g.keep, floorMap.Keys, floors, floorMap)
      requires ClosedUnderDeps(registry.manifest, {}, g.keep)
      requires forall x :: x in g.keep ==> Current(registry.manifest, state.metas, x)
      requires LeftBelow(g.keep, state.metas, floorMap, |floors|)
      modifies `stubs, state, world
      ensures OnTheWay(g, b)
      ensures Counted(r, old(world.faults), world.faults)
      ensures r.Ok? ==> StillInSync(b) && state.metas.Keys == g.keep
      ensures r.Ok? ==> forall x :: x in g.keep ==> Current(registry.manifest, state.metas, x)
      ensures r.Err? ==> NearlyInSync(b) && FromOutside(r.error)
    {
      ghost var q, keep := registry.manifest, g.keep;
      for k := 0 to |rev|
        invariant OnTheWay(g, b) && StillInSync(b) && world.faults == old(world.faults)
        invariant forall x :: x in keep ==> Current(q, state.metas, x)
        invariant LeftBelow(keep, state.metas, floorMap, |floors| - k)
      {
        ghost var f, metas0 := |floors| - 1 - k, state.metas;
        TopIsFree(q, keep, metas0, floors, floorMap, f);
        assert rev[k] == floors[f];
        r := RemoveFloor(rev[k], g, b);
        if r.Err? {
          return;
        }
        FloorIsGone(q, keep, metas0, floors, floorMap, f);
      }
      return Ok(());
    }

    /** One floor that nothing depends on any more. */
    method RemoveFloor(floor: seq<AppMeta>, ghost g: Goal, ghost b: Scene)
      returns (r: Result<(), ApplyError>)
      requires OnTheWay(g, b) && StillInSync(b)
      requires forall m :: m in floor ==> m.name !in g.keep
      requires forall m :: m in floor ==> Free(registry.manifest, state.metas, m.name)
      requires forall x :: x in g.keep ==> Current(registry.manifest, state.metas, x)
      modifies `stubs, state, world
      ensures OnTheWay(g, b)
      ensures Counted(r, old(world.faults), world.faults)
      ensures r.Ok? ==> StillInSync(b) && state.metas == old(state.metas) - NamesOn(floor)
      ensures r.Ok? ==> forall x :: x in g.keep ==> Current(registry.manifest, state.metas, x)
      ensures r.Err? ==> NearlyInSync(b) && FromOutside(r.error)
    {
      for j := 0 to |floor|
        invariant OnTheWay(g, b) && StillInSync(b) && world.faults == old(world.faults)
        invariant state.metas == old(state.metas) - NamesOn(floor[..j])
        invariant forall x :: x in g.keep ==> Current(registry.manifest, state.metas, x)
      {
        r := Remove(floor[j], g, b);
        if r.Err? {
          return;
        }
        OneMoreGone(old(state.metas), floor, j);
      }
      assert floor[..|floor|] == floor;
      return Ok(());
    }

    /** The closure of the anchors, with nothing ignored: its names and its floors. */
    method BuildKeep(anchored: seq<string>)
      returns (r: Result<(), ApplyError>, keep: set<string>,
               floors: seq<seq<AppMeta>>, ghost floorMap: map<string, nat>)
      requires registry.Valid()
      ensures r.Ok? ==> keep == Keep(registry.manifest, SetOf(anchored))
      ensures r.Ok? ==> FloorsOf(registry.manifest, {}, keep, floors, floorMap)
      ensures r.Ok? ==> ClosedUnderDeps(registry.manifest, {}, keep)
      ensures r.Ok? <==> forall a :: a in anchored ==> Resolves(registry.manifest, {}, a)
      ensures r.Err? ==> r.error.KeepBroken? && r.error.name in anchored
      ensures r.Err? ==> Explains(registry.manifest, {}, [r.error.name], r.error.cause)
    {
      var q := registry.manifest;
      var closure := new AppClosure();
      assert SetOf(anchored[..0]) == {};
      for i := 0 to |anchored|
        invariant fresh(closure) && closure.trace == [] && closure.traceMap == {}
        invariant closure.Valid(q, {}, {})
        invariant closure.floorMap.Keys == Keep(q, SetOf(anchored[..i]))
        invariant forall a :: a in anchored[..i] ==> Resolves(q, {}, a)
      {
        var name := anchored[i];
        var f := closure.Add(q, name, {});
        if f.Err? {
          assert closure.trace + [name] == [name];
          ExplainedIsBroken(q, {}, [name], f.error);
          return Err(KeepBroken(name, f.error)), {}, [], map[];
        }
        assert anchored[..i + 1] == anchored[..i] + [name];
        SetOfSnoc(anchored[..i], name);
        NeedsUnion(q, {}, SetOf(anchored[..i]), {name});
      }
      assert anchored[..|anchored|] == anchored;
      keep := closure.AppSet();
      r, floors, floorMap := Ok(()), closure.floors, closure.floorMap;
    }

    /** The closure of what is installed but not kept, with the kept apps ignored: its floors from the top. */
    method BuildUninstall(keep: set<string>)
      returns (r: Result<(), ApplyError>, rev: seq<seq<AppMeta>>,
               ghost floors: seq<seq<AppMeta>>, ghost floorMap: map<string, nat>)
      requires registry.Valid()
      ensures r.Ok? ==> FloorsOf(registry.manifest, keep, floorMap.Keys, floors, floorMap)
      ensures r.Ok? ==> |rev| == |floors| && forall i :: 0 <= i < |floors| ==> rev[|floors| - 1 - i] == floors[i]
      ensures r.Ok? ==> forall x :: x in state.metas && x !in keep ==> x in floorMap
      ensures r.Ok? <==> forall x :: x in state.metas && x !in keep ==> Resolves(registry.manifest, keep, x)
      ensures r.Err? ==> r.error.UninstallBroken? && r.error.name in state.metas
      ensures r.Err? ==> Explains(registry.manifest, keep, [r.error.name], r.error.cause)
    {
      var q := registry.manifest;
      var closure := new AppClosure();
      var list := state.List();
      for i := 0 to |list|
        invariant fresh(closure) && closure.trace == [] && closure.traceMap == {}
        invariant closure.Valid(q, keep, {})
        invariant forall x :: x in list[..i] && x !in keep ==> x in closure.floorMap && Resolves(q, keep, x)
      {
        var name := list[i];
        assert name in SetOf(list);
        assert list[..i + 1] == list[..i] + [name];
        if name in keep {
          continue;
        }
        var f := closure.Add(q, name, keep);
        if f.Err? {
          assert closure.trace + [name] == [name];
          ExplainedIsBroken(q, keep, [name], f.error);
          return Err(UninstallBroken(name, f.error)), [], [], map[];
        }
        NeedsHasRoots(q, keep, {name});
        ResolvesUnfold(q, keep, name);
      }
      forall x | x in state.metas && x !in keep ensures x in closure.floorMap && Resolves(q, keep, x) {
        assert x in SetOf(list);
        assert x in list[..|list|];
      }
      rev := closure.RevFloors();
      r, floors, floorMap := Ok(()), closure.floors, closure.floorMap;
    }

    /** What every apply leaves behind, however it ends. */
    ghost predicate Ended(g: Goal, b: Scene)
      reads this, state, world, registry
    {
      && Valid()
      && Travelled(registry.manifest, g, b, Now())
      && NearlyInSync(b)
    }

    /** And what a successful one does. */
    ghost predicate Succeeded(g: Goal, b: Scene)
      reads this, state, world, registry
    {
      Arrived(registry.manifest, g, b, Now())
    }

    /** A plan that cannot be made changes nothing; a plan that can be made fails for a named reason. */
    ghost predicate Explained(e: ApplyError, g: Goal, b: Scene)
      reads this, state, world, registry
    {
      if e.KeepBroken? || e.UninstallBroken? then
        !Plannable(registry.manifest, g, b.mem.metas) && Now() == b
      else
        Plannable(registry.manifest, g, b.mem.metas) && WhyStopped(e, registry.manifest, g, b, Known())
    }

    ghost function Aim(anchors: set<string>): Goal
      reads registry
    {
      GoalOf(registry.manifest, anchors)
    }

    /**
     Brings the system to a set of anchors.  On success it is exactly there; on failure it is
     somewhere on the way, and the error says whether the plan or the outside is to blame.
     */
    method Apply(anchored: seq<string>) returns (r: Result<(), ApplyError>)
      requires Valid()
      modifies `stubs, state, world
      ensures Ended(Aim(SetOf(anchored)), old(Now()))
      ensures Counted(r, old(world.faults), world.faults)
      ensures Able(registry.manifest, Aim(SetOf(anchored)), old(state.metas), Known()) ==>
                r.Ok? || world.faults > old(world.faults)
      ensures r.Ok? ==> Succeeded(Aim(SetOf(anchored)), old(Now()))
      ensures r.Ok? ==> Plannable(registry.manifest, Aim(SetOf(anchored)), old(state.metas))
      ensures r.Ok? ==> AtManifest(registry.manifest, Aim(SetOf(anchored)).keep, state.metas)
      ensures r.Err? ==> Explained(r.error, Aim(SetOf(anchored)), old(Now()))
    {
      ghost var b, g := Now(), Aim(SetOf(anchored));
      StandingStillIsFine(registry.manifest, g, b);
      var plan, keep, floors, rev;
      ghost var floorMap, goneFloors, goneMap;
      plan, keep, floors, floorMap, rev, goneFloors, goneMap := Plan(anchored);
      if plan.Err? {
        return Err(plan.error);
      }
      r := Carry(floors, floorMap, rev, goneFloors, goneMap, anchored, g, b);
      if r.Ok? {
        TargetIsAtManifest(registry.manifest, g, b.mem);
      }
    }

    /** What to keep, what to bring up floor by floor, and what to take down; nothing is touched yet. */
    method Plan(anchored: seq<string>)
      returns (r: Result<(), ApplyError>, keep: set<string>,
               floors: seq<seq<AppMeta>>, ghost floorMap: map<string, nat>,
               rev: seq<seq<AppMeta>>, ghost goneFloors: seq<seq<AppMeta>>, ghost goneMap: map<string, nat>)
      requires Valid()
      ensures r.Ok? <==> Plannable(registry.manifest, Aim(SetOf(anchored)), state.metas)
      ensures r.Err? ==> r.error.KeepBroken? || r.error.UninstallBroken?
      ensures r.Ok? ==> keep == Aim(SetOf(anchored)).keep && ClosedUnderDeps(registry.manifest, {}, keep)
      ensures r.Ok? ==> FloorsOf(registry.manifest, {}, keep, floors, floorMap)
      ensures r.Ok? ==> FloorsOf(registry.manifest, keep, goneMap.Keys, goneFloors, goneMap)
      ensures r.Ok? ==> |rev| == |goneFloors|
      ensures r.Ok? ==> forall i :: 0 <= i < |goneFloors| ==> rev[|goneFloors| - 1 - i] == goneFloors[i]
      ensures r.Ok? ==> forall x :: x in state.metas && x !in keep ==> x in goneMap
    {
      rev, goneFloors, goneMap := [], [], map[];
      r, keep, floors, floorMap := BuildKeep(anchored);
      if r.Ok? {
        r, rev, goneFloors, goneMap := BuildUninstall(keep);
      }
    }

    /** Carries a plan out: up, then down, then the anchors. */
    method Carry(floors: seq<seq<AppMeta>>, ghost floorMap: map<string, nat>, rev: seq<seq<AppMeta>>,
                 ghost goneFloors: seq<seq<AppMeta>>, ghost goneMap: map<string, nat>,
                 anchored: seq<string>, ghost g: Goal, ghost b: Scene)
      returns (r: Result<(), ApplyError>)
      requires g == Aim(g.anchors)
      requires OnTheWay(g, b) && StillInSync(b) && b.mem == state.Value() && g.anchors == SetOf(anchored)
      requires FloorsOf(registry.manifest, {}, g.keep, floors, floorMap)
      requires ClosedUnderDeps(registry.manifest, {}, g.keep)
      requires |rev| == |goneFloors| && forall i :: 0 <= i < |goneFloors| ==> rev[|goneFloors| - 1 - i] == goneFloors[i]
      requires FloorsOf(registry.manifest, g.keep, goneMap.Keys, goneFloors, goneMap)
      requires forall x :: x in state.metas && x !in g.keep ==> x in goneMap
      modifies `stubs, state, world
      ensures Ended(g, b)
      ensures Counted(r, old(world.faults), world.faults)
      ensures r.Ok? ==> Succeeded(g, b)
      ensures r.Err? ==> WhyStopped(r.error, registry.manifest, g, b, Known())
    {
      r := UpgradeFloors(floors, floorMap, g, b);
      if r.Err? {
        return;
      }
      forall x | x in state.metas && x !in g.keep ensures x in goneMap && goneMap[x] < |goneFloors| {
        assert Lookup(b.mem.metas, x) == Some(state.metas[x]);
      }
      r := RemoveFloors(rev, goneFloors, goneMap, g, b);
      if r.Err? {
        return;
      }
      r := SaveAnchors(anchored, g, b);
    }

    /** The last step: the anchors are recorded once everything else is in place. */
    method SaveAnchors(anchored: seq<string>, ghost g: Goal, ghost b: Scene) returns (r: Result<(), ApplyError>)
      requires g == Aim(g.anchors)
      requires OnTheWay(g, b) && StillInSync(b) && g.anchors == SetOf(anchored)
      requires state.metas.Keys == g.keep
      requires forall x :: x in g.keep ==> Current(registry.manifest, state.metas, x)
      modifies state, world
      ensures Ended(g, b)
      ensures Counted(r, old(world.faults), world.faults)
      ensures r.Ok? ==> Succeeded(g, b)
      ensures r.Err? ==> r.error == SaveFailed
    {
      ghost var q, s := registry.manifest, Now();
      FinishedIsTarget(q, g.keep, b.mem.metas, state.metas);
      CurrentMeansNoDowngrade(q, g.keep, b.mem.metas, state.metas);
      state.anchored := set x | x in anchored;
      var ok := world.Save(state, None, stubs.Keys);
      AnchorsAreGood(q, g, b, s, world.saved, stubs.Keys);
      assert InSync(b) ==> AgreeExcept(world.saved.metas, world.running, "");
      return if ok then Ok(()) else Err(SaveFailed);
    }

    /** Adds anchors. */
    method Install(names: seq<string>) returns (r: Result<(), ApplyError>)
      requires Valid()
      modifies `stubs, state, world
      ensures Ended(Aim(old(state.anchored) + SetOf(names)), old(Now()))
      ensures Counted(r, old(world.faults), world.faults)
      ensures Able(registry.manifest, Aim(old(state.anchored) + SetOf(names)), old(state.metas), Known()) ==>
                r.Ok? || world.faults > old(world.faults)
      ensures r.Ok? ==> Succeeded(Aim(old(state.anchored) + SetOf(names)), old(Now()))
      ensures r.Ok? ==> Plannable(registry.manifest, Aim(old(state.anchored) + SetOf(names)), old(state.metas))
      ensures r.Err? ==> Explained(r.error, Aim(old(state.anchored) + SetOf(names)), old(Now()))
    {
      var anchored := WithNames(state.anchored, names);
      var list := ListOf(anchored);
      r := Apply(list);
    }

    /** Takes anchors away.  A name given twice is refused the second time. */
    method Uninstall(names: seq<string>) returns (r: Result<(), ApplyError>)
      requires Valid()
      modifies `stubs, state, world
      ensures Valid()
      ensures r.Err? && r.error.NotAnchored? <==> !Removable(names, old(state.anchored))
      ensures r.Err? && r.error.NotAnchored? ==> Now() == old(Now())
      ensures Counted(r, old(world.faults), world.faults)
      ensures Removable(names, old(state.anchored)) &&
              Able(registry.manifest, Aim(old(state.anchored) - SetOf(names)), old(state.metas), Known()) ==>
                r.Ok? || world.faults > old(world.faults)
      ensures Removable(names, old(state.anchored)) ==> Ended(Aim(old(state.anchored) - SetOf(names)), old(Now()))
      ensures r.Ok? ==> Succeeded(Aim(old(state.anchored) - SetOf(names)), old(Now()))
      ensures r.Ok? ==> Plannable(registry.manifest, Aim(old(state.anchored) - SetOf(names)), old(state.metas))
      ensures r.Err? && !r.error.NotAnchored? ==>
                Explained(r.error, Aim(old(state.anchored) - SetOf(names)), old(Now()))
    {
      var anchored := WithoutNames(state.anchored, names);
      if anchored.Err? {
        return Err(anchored.error);
      }
      var list := ListOf(anchored.value);
      r := Apply(list);
    }

    /** Same anchors, whatever the registry now says about them. */
    method Update() returns (r: Result<(), ApplyError>)
      requires Valid()
      modifies `stubs, state, world
      ensures Ended(Aim(old(state.anchored)), old(Now()))
      ensures Counted(r, old(world.faults), world.faults)
      ensures Able(registry.manifest, Aim(old(state.anchored)), old(state.metas), Known()) ==>
                r.Ok? || world.faults > old(world.faults)
      ensures r.Ok? ==> Succeeded(Aim(old(state.anchored)), old(Now()))
      ensures r.Ok? ==> Plannable(registry.manifest, Aim(old(state.anchored)), old(state.metas))
      ensures r.Err? ==> Explained(r.error, Aim(old(state.anchored)), old(Now()))
    {
      var list := ListOf(state.anchored);
      r := Apply(list);
    }

    /** A forced change from a version to itself; nothing is recorded. */
    method Reinstall(name: string) returns (r: Result<(), ApplyError>)
      requires Valid()
      modifies world
      ensures Valid() && world.saved == old(world.saved)
      ensures Counted(r, old(world.faults), world.faults)
      ensures r.Ok? <==> name in state.metas && world.faults == old(world.faults)
      ensures name in state.metas ==>
                && world.points == old(world.points) +
                     [Point(CallChange(AppChange(name, Some(state.metas[name]), Some(state.metas[name]))),
                            state.Value(), old(world.saved), old(world.running), stubs.Keys)]
                && AgreeExcept(world.running, old(world.running), name)
                && (r.Ok? ==> Lookup(world.running, name) == Some(state.metas[name]))
      ensures name !in state.metas ==> r == Err(NotInstalled(name)) && world.points == old(world.points)
    {
      var m := state.Meta(name);
      if m == None {
        return Err(NotInstalled(name));
      }
      var app := Stub(name);
      var ok := world.Change(app.value, m, m, state.Value(), stubs.Keys);
      return if ok then Ok(()) else Err(ChangeFailed(name));
    }
  }
}

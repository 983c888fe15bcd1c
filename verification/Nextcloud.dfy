/** homeapp/nextcloud/nextcloud.go: climbing the ladder of major versions. */
module Nextclouds {
  import opened Basics
  import opened DrvApi
  import opened Semver

  const OLDEST_MAJOR := 20

  /** The last step of each major counts. */
  function LadderMap(ladder: seq<StepVersion>): map<int, StepVersion> {
    if ladder == [] then map[]
    else var last := ladder[|ladder| - 1];
         LadderMap(ladder[..|ladder| - 1])[last.major := last]
  }

  lemma {:induction false} LadderMapIsKeyed(ladder: seq<StepVersion>)
    ensures forall k :: k in LadderMap(ladder) ==> LadderMap(ladder)[k].major == k && LadderMap(ladder)[k] in ladder
    ensures forall s :: s in ladder ==> s.major in LadderMap(ladder)
  {
    if ladder != [] {
      var init := ladder[..|ladder| - 1];
      LadderMapIsKeyed(init);
      assert forall s :: s in ladder ==> s in init || s == ladder[|ladder| - 1];
    }
  }

  ghost function RungsFrom(m: map<int, StepVersion>, cur: int): set<int> {
    set k | k in m && k >= cur
  }

  /** The rungs at cur, cur + 1, ... up to the first gap. */
  ghost function Climb(m: map<int, StepVersion>, cur: int): seq<StepVersion>
    decreases RungsFrom(m, cur)
  {
    if cur !in m then []
    else
      assert cur in RungsFrom(m, cur) && cur !in RungsFrom(m, cur + 1);
      [m[cur]] + Climb(m, cur + 1)
  }

  lemma {:induction false} ClimbAt(m: map<int, StepVersion>, cur: int, k: nat)
    requires k <= |Climb(m, cur)|
    ensures k < |Climb(m, cur)| <==> cur + k in m
    ensures k < |Climb(m, cur)| ==> Climb(m, cur)[k] == m[cur + k]
    decreases k
  {
    if cur in m && k > 0 {
      assert cur + 1 + (k - 1) == cur + k;
      ClimbAt(m, cur + 1, k - 1);
    }
  }

  /** Rung by rung the majors are consecutive, and the climb only ends at a major the ladder lacks. */
  lemma ClimbIsConsecutive(ladder: seq<StepVersion>, cur: int)
    ensures var all := Climb(LadderMap(ladder), cur);
      && (forall k :: 0 <= k < |all| ==> all[k] in ladder && all[k].major == cur + k)
      && (forall s :: s in ladder ==> s.major != cur + |all|)
  {
    var all := Climb(LadderMap(ladder), cur);
    LadderMapIsKeyed(ladder);
    forall k | 0 <= k < |all| ensures all[k] in ladder && all[k].major == cur + k {
      ClimbAt(LadderMap(ladder), cur, k);
    }
    ClimbAt(LadderMap(ladder), cur, |all|);
  }

  lemma {:induction false} ClimbFromAbove(m: map<int, StepVersion>, cur: int, k: nat)
    requires k <= |Climb(m, cur)|
    ensures Climb(m, cur + k) == Climb(m, cur)[k..]
  {
    if k > 0 {
      ClimbFromAbove(m, cur, k - 1);
      ClimbAt(m, cur, k - 1);
      assert Climb(m, cur + k - 1)[1..] == Climb(m, cur + k);
    }
  }

  ghost predicate WellLabelled(ladder: seq<StepVersion>) {
    forall s :: s in ladder ==> Major(s.version) == Some(s.major)
  }

  datatype UpgradeError =
    | LadderMissing | HintUnreadable | ContainerUnreadable | NoVersion
    | BadVersion(version: string) | TooOld(version: string)
    | RungFailed(step: StepVersion) | HintNotSaved | DomainsFailed

  /** How far a climb got: the rungs begun, the rungs completed, and the hint it leaves. */
  datatype Progress = Progress(begun: seq<StepVersion>, done: seq<StepVersion>, hint: Option<string>)

  function HintAfter(hint0: Option<string>, done: seq<StepVersion>): Option<string> {
    if done == [] then hint0 else Some(done[|done| - 1].version)
  }

  /** A climb from `cur` with hint `hint0`, however it ended. */
  ghost predicate Climbed(m: map<int, StepVersion>, cur: int, hint0: Option<string>, p: Progress) {
    var all := Climb(m, cur);
    && p.begun <= all && p.done <= p.begun && |p.begun| <= |p.done| + 1
    && (p.hint == HintAfter(hint0, p.done) ||
        (p.begun == p.done != [] && p.hint == HintAfter(hint0, p.done[..|p.done| - 1])))
  }

  /** Rungs of the ladder with the majors from `cur` on, one after the other, up to the first it lacks. */
  ghost predicate RungsClimbed(ladder: seq<StepVersion>, cur: int, done: seq<StepVersion>) {
    && (forall k :: 0 <= k < |done| ==> done[k] in ladder && done[k].major == cur + k)
    && (forall s :: s in ladder ==> s.major != cur + |done|)
  }

  ghost predicate ReachedTop(m: map<int, StepVersion>, cur: int, hint0: Option<string>, p: Progress) {
    p.begun == p.done == Climb(m, cur) && p.hint == HintAfter(hint0, Climb(m, cur))
  }

  /** A container, the version it runs, and whether it tells it when asked. */
  datatype Container = Container(version: string, tells: bool)

  /** How an upgrade over `ladder` from `cur` may have ended, and what it leaves. */
  ghost predicate EndsLike(ladder: seq<StepVersion>, cur: int, hint0: Option<string>, p: Progress,
                           container: Option<Container>, r: Result<(), UpgradeError>) {
    && Climbed(LadderMap(ladder), cur, hint0, p)
    && (r.Ok? || r == Err(DomainsFailed) ==>
          && ReachedTop(LadderMap(ladder), cur, hint0, p) && RungsClimbed(ladder, cur, p.done)
          && (p.done != [] ==>
                && p.hint == Some(p.done[|p.done| - 1].version)
                && (r.Ok? ==> container == Some(Container(p.done[|p.done| - 1].version, true)))))
    && (r.Err? && r.error.RungFailed? ==> |p.begun| == |p.done| + 1 && r.error.step == p.begun[|p.done|])
    && (r.Err? && !r.error.HintNotSaved? ==> p.hint == HintAfter(hint0, p.done))
    && (r == Err(HintNotSaved) ==> p.begun == p.done != [])
  }

  /** The version an upgrade goes by when the container cannot tell. */
  function Fallback(hint: Option<string>, from: Option<AppMeta>): string {
    if hint.Some? && hint.value != "" then hint.value
    else match from { case Some(m) => m.semVersion case None => "" }
  }

  function StartVersion(container: Option<Container>, hint: Option<string>, from: Option<AppMeta>): string {
    match container
    case Some(c) => if c.tells then c.version else Fallback(hint, from)
    case None => Fallback(hint, from)
  }

  /** The errors that report a call that failed. */
  predicate ReportsFault(e: UpgradeError) {
    match e
    case HintUnreadable => true
    case ContainerUnreadable => true
    case RungFailed(_) => true
    case HintNotSaved => true
    case DomainsFailed => true
    case _ => false
  }

  /** An upgrade can go by this version. */
  predicate CanStartFrom(version: string) {
    Major(version).Some? && Major(version).value >= OLDEST_MAJOR
  }

  /** An upgrade goes by the container, if that tells; else by the hint, if there is one; else by the record. */
  predicate StartsAt(container: Option<Container>, hint: Option<string>, from: Option<AppMeta>, cur: int) {
    if container.Some? && container.value.tells then Major(container.value.version) == Some(cur)
    else if hint.Some? && hint.value != "" then Major(hint.value) == Some(cur)
    else from.Some? && Major(from.value.semVersion) == Some(cur)
  }

  /** There is something to go by exactly if what is gone by has a major, of at least 20. */
  lemma CanStartExactlyFrom20(container: Option<Container>, hint: Option<string>, from: Option<AppMeta>)
    ensures CanStartFrom(StartVersion(container, hint, from)) <==>
              exists cur :: cur >= 20 && StartsAt(container, hint, from, cur)
  {
    assert Major("") == None;
    var version := StartVersion(container, hint, from);
    if CanStartFrom(version) {
      assert StartsAt(container, hint, from, Major(version).value);
    }
  }

  predicate WhyNoStart(e: UpgradeError, version: string) {
    match e
    case HintUnreadable => true
    case ContainerUnreadable => true
    case NoVersion => version == ""
    case BadVersion(v) => v == version != "" && Major(version) == None
    case TooOld(v) => v == version && Major(version).Some? && Major(version).value < OLDEST_MAJOR
    case _ => false
  }

  class Nextcloud {
    var hint: Option<string>           // the stored version hint
    var container: Option<Container>   // if there is one
    ghost var begun: seq<StepVersion>
    ghost var done: seq<StepVersion>
    ghost var faults: nat              // how many calls have failed

    constructor ()
      ensures hint == None && container == None && begun == [] && done == [] && faults == 0
    {
      hint, container, begun, done, faults := None, None, [], [], 0;
    }

    method Call() returns (ok: bool)
      modifies `faults
      ensures faults == old(faults) + Fault(ok)
    {
      ok := *;
      faults := faults + Fault(ok);
    }

    method VersionHint() returns (r: Result<Option<string>, UpgradeError>)
      modifies `faults
      ensures r.Ok? ==> r.value == hint
      ensures r.Err? ==> r.error == HintUnreadable
      ensures faults == old(faults) + Fault(r.Ok?)
    {
      var ok := Call();
      return if ok then Ok(hint) else Err(HintUnreadable);
    }

    method SetVersionHint(v: string) returns (ok: bool)
      modifies `hint, `faults
      ensures hint == old(hint) || hint == Some(v)
      ensures ok ==> hint == Some(v)
      ensures faults == old(faults) + Fault(ok)
    {
      ok := Call();
      var reached: bool := *;
      if ok || reached {
        hint := Some(v);
      }
    }

    /** The container's own version, or `def` when there is no container or it does not tell. */
    method ReadVersion(def: string) returns (r: Result<string, UpgradeError>)
      modifies `faults
      ensures r.Ok? ==> r.value == if container.Some? && container.value.tells then container.value.version else def
      ensures r.Err? ==> r.error == ContainerUnreadable
      ensures faults == old(faults) + Fault(r.Ok?)
    {
      var checked := Call();
      if !checked {
        return Err(ContainerUnreadable);
      }
      if container == None {
        return Ok(def);
      }
      return Ok(if container.value.tells then container.value.version else def);
    }

    /** Replaces the container and waits until it reports the wanted version. */
    method Upgrade1(step: StepVersion) returns (ok: bool)
      modifies `container, `begun, `done, `faults
      ensures faults == old(faults) + Fault(ok)
      ensures begun == old(begun) + [step]
      ensures done == if ok then old(done) + [step] else old(done)
      ensures ok ==> container == Some(Container(step.version, true))
    {
      begun := begun + [step];
      var left: Option<Container> := *;
      container := left;
      ok := Call();
      if ok {
        container := Some(Container(step.version, true));
        done := done + [step];
      }
    }

    /** Where an upgrade starts: the version it goes by, and that version's major. */
    method StartingPoint(from: Option<AppMeta>) returns (r: Result<(string, int), UpgradeError>)
      modifies `faults
      ensures faults == old(faults) + Fault(!(r.Err? && ReportsFault(r.error)))
      ensures r.Ok? ==> Major(r.value.0) == Some(r.value.1) && r.value.1 >= OLDEST_MAJOR
      ensures r.Ok? ==> r.value.0 == StartVersion(container, hint, from)
      ensures r.Err? ==> WhyNoStart(r.error, StartVersion(container, hint, from))
    {
      var verHint := match from { case Some(m) => m.semVersion case None => "" };
      var stored := VersionHint();
      if stored.Err? {
        return Err(stored.error);
      }
      if stored.value.Some? && stored.value.value != "" {
        verHint := stored.value.value;
      }
      var version := ReadVersion(verHint);
      if version.Err? {
        return Err(version.error);
      }
      if version.value == "" {
        return Err(NoVersion);
      }
      match Major(version.value) {
        case None => return Err(BadVersion(version.value));
        case Some(major) =>
          if major < OLDEST_MAJOR {
            return Err(TooOld(version.value));
          }
          return Ok((version.value, major));
      }
    }

    static method MakeLadderMap(ladder: seq<StepVersion>) returns (m: map<int, StepVersion>)
      ensures m == LadderMap(ladder)
    {
      m := map[];
      for i := 0 to |ladder|
        invariant m == LadderMap(ladder[..i])
      {
        assert ladder[..i + 1][..i] == ladder[..i];
        m := m[ladder[i].major := ladder[i]];
      }
      assert ladder[..|ladder|] == ladder;
    }

    /**
     Climbs from the current major to the first gap, storing the hint after every rung.
     `cur` is the major the climb started from, when it got that far.
     */
    method Upgrade(img: string, from: Option<AppMeta>, ladder: seq<StepVersion>)
      returns (r: Result<(), UpgradeError>, ghost cur: int)
      modifies this
      ensures faults == old(faults) + Fault(!(r.Err? && ReportsFault(r.error)))
      ensures faults == old(faults) ==>
                (r.Ok? <==> ladder != [] && CanStartFrom(StartVersion(old(container), old(hint), from)))
      ensures EndsLike(ladder, cur, old(hint), Progress(begun, done, hint), container, r)
      ensures r == Err(LadderMissing) <==> ladder == []
      ensures r.Ok? || begun != [] ==> cur >= 20 && StartsAt(old(container), old(hint), from, cur)
      ensures r.Err? && begun == [] && !r.error.LadderMissing? && !r.error.DomainsFailed? ==>
                WhyNoStart(r.error, StartVersion(old(container), old(hint), from))
    {
      begun, done := [], [];
      cur := 0;
      if ladder == [] {
        return Err(LadderMissing), cur;
      }
      var start := StartingPoint(from);
      if start.Err? {
        return Err(start.error), cur;
      }
      cur := start.value.1;
      // a climb that ends on another image than the target, img, is only logged
      r := UpgradeFrom(ladder, start.value.0, start.value.1);
    }

    method UpgradeFrom(ladder: seq<StepVersion>, from: string, start: int) returns (r: Result<(), UpgradeError>)
      requires begun == [] && done == []
      modifies this
      ensures faults == old(faults) + Fault(r.Ok?)
      ensures r.Err? ==> r.error.RungFailed? || r.error.HintNotSaved? || r.error.DomainsFailed?
      ensures EndsLike(ladder, start, old(hint), Progress(begun, done, hint), container, r)
    {
      var ladderMap := MakeLadderMap(ladder);
      var last;
      r, last := ClimbLadder(ladderMap, from, start);
      ClimbIsConsecutive(ladder, start);
      if r.Err? {
        return;
      }
      var registered := Call();
      return if registered then Ok(()) else Err(DomainsFailed);
    }

    method ClimbLadder(ladderMap: map<int, StepVersion>, from: string, start: int)
      returns (r: Result<(), UpgradeError>, last: string)
      requires begun == [] && done == []
      modifies this
      ensures r.Ok? ==> ReachedTop(ladderMap, start, old(hint), Progress(begun, done, hint))
      ensures Climbed(ladderMap, start, old(hint), Progress(begun, done, hint))
      ensures r.Ok? && done != [] ==>
                container == Some(Container(done[|done| - 1].version, true)) && last == done[|done| - 1].image
      ensures faults == old(faults) + Fault(r.Ok?)
      ensures r.Err? ==> (r.error == HintNotSaved && begun == done != []) ||
                         (|begun| == |done| + 1 && r.error == RungFailed(begun[|done|]))
      ensures r.Err? && r.error != HintNotSaved ==> hint == HintAfter(old(hint), done)
    {
      var version, curMajor := from, start;
      last := "";
      ghost var all := Climb(ladderMap, start);
      while curMajor in ladderMap
        invariant start <= curMajor && curMajor - start <= |all|
        invariant begun == done == all[..curMajor - start]
        invariant hint == HintAfter(old(hint), done)
        invariant done != [] ==>
                    container == Some(Container(done[|done| - 1].version, true)) && last == done[|done| - 1].image
        invariant faults == old(faults)
        decreases |all| - (curMajor - start)
      {
        ghost var k := curMajor - start;
        ClimbAt(ladderMap, start, k);
        var v := ladderMap[curMajor];
        assert all[..k + 1] == all[..k] + [v] && all[..k + 1][..k] == all[..k];
        var ok := Upgrade1(v);
        if !ok {
          return Err(RungFailed(v)), last;
        }
        version := v.version;
        curMajor := curMajor + 1;
        last := v.image;
        ok := SetVersionHint(version);
        if !ok {
          return Err(HintNotSaved), last;
        }
      }
      ClimbAt(ladderMap, start, curMajor - start);
      assert all[..|all|] == all;
      return Ok(()), last;
    }
  }

  /** A rerun that starts from the hint of rung `k` begins with that very rung exactly when its label is true. */
  lemma RerunStartsAtTheLastRung(m: map<int, StepVersion>, cur: int, k: nat)
    requires k < |Climb(m, cur)| && forall i :: i in m ==> m[i].major == i
    ensures Major(Climb(m, cur)[k].version) == Some(cur + k) <==>
              Major(Climb(m, cur)[k].version).Some? &&
              Climb(m, Major(Climb(m, cur)[k].version).value) == Climb(m, cur)[k..]
  {
    var hint := Climb(m, cur)[k].version;
    ClimbFromAbove(m, cur, k);
    if Major(hint).Some? && Climb(m, Major(hint).value) == Climb(m, cur)[k..] {
      var n := Major(hint).value;
      SameClimbSameStart(m, n, cur + k);
    }
  }

  /** Rungs of different majors are different, so a climb tells where it started. */
  lemma SameClimbSameStart(m: map<int, StepVersion>, a: int, b: int)
    requires Climb(m, a) == Climb(m, b) != []
    requires forall k :: k in m ==> m[k].major == k
    ensures a == b
  {
    assert Climb(m, a)[0] == m[a] && Climb(m, b)[0] == m[b];
  }

  /** Of two rungs with a gap between them, a climb from the lower one ends right there. */
  lemma ClimbEndsAtTheGap(lower: StepVersion, upper: StepVersion)
    requires lower.major + 1 < upper.major
    ensures Climb(LadderMap([lower, upper]), lower.major) == [lower]
  {
    var m := LadderMap([lower, upper]);
    assert [lower][..0] == [] && LadderMap([lower]) == map[][lower.major := lower];
    assert [lower, upper][..1] == [lower] && m == LadderMap([lower])[upper.major := upper];
    assert Climb(m, lower.major + 1) == [];
  }

  /** The failing input: a rung labelled 25 that installs 24.  A rerun by its hint climbs nothing at all. */
  lemma MislabelledRung() returns (ladder: seq<StepVersion>, rung: StepVersion)
    ensures Climb(LadderMap(ladder), 25) == [rung]
    ensures Major(rung.version) == Some(24) && Climb(LadderMap(ladder), 24) == []
  {
    rung := StepVersion(25, Itoa(24) + ".1", "nc");
    ladder := [rung];
    MajorOfTag(24, ".1");
    assert ladder[..0] == [] && LadderMap(ladder) == map[25 := rung];
    assert Climb(LadderMap(ladder), 26) == [];
  }

  /** The hint names a rung that was completed: the last one, or the one before when saving failed. */
  ghost function HintedRungs(hint0: Option<string>, p: Progress): nat {
    if p.hint == HintAfter(hint0, p.done) || p.done == [] then |p.done| else |p.done| - 1
  }

  /**
   A rerun that has to go by the hint begins with the rung the hint names and climbs on from there:
   the rungs kept from the first run and those of the rerun follow each other without a gap, and
   when the rerun gets to the top the two together are the whole climb.
   */
  lemma {:induction false} RerunNeverSkips(ladder: seq<StepVersion>, cur: int, hint0: Option<string>, p: Progress,
                        from: Option<AppMeta>, cur': int, p': Progress)
    requires WellLabelled(ladder) && Climbed(LadderMap(ladder), cur, hint0, p)
    requires HintedRungs(hint0, p) > 0
    requires Major(Fallback(p.hint, from)) == Some(cur')
    requires Climbed(LadderMap(ladder), cur', p.hint, p')
    ensures var h := HintedRungs(hint0, p); var all := Climb(LadderMap(ladder), cur);
      && cur' == cur + h - 1
      && p.done[..h - 1] + p'.begun <= all
      && (p'.begun != [] ==> p'.begun[0] == p.done[h - 1])
      && (ReachedTop(LadderMap(ladder), cur', p.hint, p') ==> p.done[..h - 1] + p'.done == all)
  {
    var m, h, all := LadderMap(ladder), HintedRungs(hint0, p), Climb(LadderMap(ladder), cur);
    HintNamesARung(m, cur, hint0, p);
    assert cur' == cur + (h - 1) by {
      HintGivesItsMajor(ladder, cur, h - 1, p.hint, from);
    }
    var rest := all[h - 1..];
    assert Climb(m, cur') == rest by {
      ClimbFromAbove(m, cur, h - 1);
    }
    assert p'.begun <= rest && rest[0] == all[h - 1];
    PrefixAfterPrefix(all, h - 1, p'.begun);
  }

  lemma {:induction false} HintGivesItsMajor(ladder: seq<StepVersion>, cur: int, k: nat, hint: Option<string>,
                                             from: Option<AppMeta>)
    requires WellLabelled(ladder) && k < |Climb(LadderMap(ladder), cur)|
    requires hint == Some(Climb(LadderMap(ladder), cur)[k].version)
    ensures Major(Fallback(hint, from)) == Some(cur + k)
  {
    ClimbIsConsecutive(ladder, cur);
    assert Climb(LadderMap(ladder), cur)[k] in ladder;
  }

  lemma HintNamesARung(m: map<int, StepVersion>, cur: int, hint0: Option<string>, p: Progress)
    requires Climbed(m, cur, hint0, p) && HintedRungs(hint0, p) > 0
    ensures var h := HintedRungs(hint0, p); var all := Climb(m, cur);
      h <= |all| && p.done[..h - 1] == all[..h - 1] && p.done[h - 1] == all[h - 1] && p.hint == Some(all[h - 1].version)
  {
  }

  lemma PrefixAfterPrefix<T>(all: seq<T>, k: nat, s: seq<T>)
    requires k <= |all| && s <= all[k..]
    ensures all[..k] + s <= all
    ensures s == all[k..] ==> all[..k] + s == all
  {
  }

  /** homerelease/build.go: a step takes its version from an image tag, and its major from that version. */
  method BuildSteps(tags: seq<(string, string)>) returns (r: Result<seq<StepVersion>, string>)
    ensures r.Ok? <==> forall t :: t in tags ==> Major(t.0).Some?
    ensures r.Ok? ==> WellLabelled(r.value) && |r.value| == |tags|
    ensures r.Ok? ==> forall i :: 0 <= i < |tags| ==> r.value[i].version == tags[i].0 && r.value[i].image == tags[i].1
    ensures r.Err? ==> Major(r.error) == None
  {
    var steps: seq<StepVersion> := [];
    for i := 0 to |tags|
      invariant |steps| == i && WellLabelled(steps)
      invariant forall t :: t in tags[..i] ==> Major(t.0).Some?
      invariant forall j :: 0 <= j < i ==> steps[j].version == tags[j].0 && steps[j].image == tags[j].1
    {
      match Major(tags[i].0) {
        case None => return Err(tags[i].0);
        case Some(major) => steps := steps + [StepVersion(major, tags[i].0, tags[i].1)];
      }
    }
    return Ok(steps);
  }
}

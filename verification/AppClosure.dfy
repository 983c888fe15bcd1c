/** jarvis/app_closure.go: the dependency closure builder. */
module AppClosures {
  import opened Basics
  import opened DrvApi
  import opened DepGraph

  /** `Import` is the annotation every level of the recursion wraps around its callee's error. */
  datatype AddError =
    | NotFound(name: string)
    | Circle(name: string, circle: seq<string>)
    | Import(dep: string, cause: AddError)

  /** The names an error travelled through, outermost first. */
  function ImportChain(e: AddError): seq<string> {
    match e
    case Import(dep, cause) => [dep] + ImportChain(cause)
    case _ => []
  }

  function RootCause(e: AddError): AddError {
    match e
    case Import(_, cause) => RootCause(cause)
    case _ => e
  }

  /**
   The error names a real defect: the chain of imports, appended to the trace, is a walk to the
   offending name, which is either unknown or the start of exactly the circle reported.
   */
  ghost predicate Explains(q: Manifest, ignore: set<string>, path: seq<string>, e: AddError) {
    var p := path + ImportChain(e);
    && Walk(q, ignore, p)
    && match RootCause(e) {
         case NotFound(x) => x == Last(p) && x !in q && x !in ignore
         case Circle(x, circle) =>
           x == Last(p) && exists i :: 0 <= i < |p| - 1 && p[i] == x && circle == p[i..|p| - 1]
         case Import(_, _) => false
       }
  }

  lemma PushedIsWalk(q: Manifest, ignore: set<string>, trace: seq<string>, name: string)
    requires trace != [] ==> Walk(q, ignore, trace) && Edge(q, ignore, Last(trace), name)
    ensures Walk(q, ignore, trace + [name])
  {
  }

  lemma CircleIsExplained(q: Manifest, ignore: set<string>, trace: seq<string>, name: string, i: nat)
    requires Walk(q, ignore, trace + [name]) && i < |trace| && trace[i] == name
    ensures Explains(q, ignore, trace + [name], Circle(name, trace[i..]))
  {
    var p := trace + [name];
    assert p + ImportChain(Circle(name, trace[i..])) == p;
    assert p[i] == name && trace[i..] == p[i..|p| - 1];
  }

  lemma ExplainsImport(q: Manifest, ignore: set<string>, path: seq<string>, dep: string, cause: AddError)
    requires Explains(q, ignore, path + [dep], cause)
    ensures Explains(q, ignore, path, Import(dep, cause))
  {
    assert path + [dep] + ImportChain(cause) == path + ImportChain(Import(dep, cause));
  }

  lemma ExplainedIsBroken(q: Manifest, ignore: set<string>, path: seq<string>, e: AddError)
    requires path != [] && Explains(q, ignore, path, e)
    ensures Broken(q, ignore, path[0])
    ensures !Resolves(q, ignore, path[0])
  {
    var p := path + ImportChain(e);
    if RootCause(e).NotFound? {
      assert DeadEnd(q, ignore, p);
    } else {
      var x, i := RootCause(e).name, 0;
      i :| 0 <= i < |p| - 1 && p[i] == x;
      assert p[..|p| - 1][i] == Last(p);
      assert Loops(q, ignore, p);
    }
    assert p[0] == path[0];
    if Resolves(q, ignore, path[0]) {
      ResolvesIsNotBroken(q, ignore, path[0]);
    }
  }

  ghost predicate OnTrace(q: Manifest, ignore: set<string>, trace: seq<string>, traceMap: set<string>) {
    && traceMap == SetOf(trace)
    && (trace != [] ==> Walk(q, ignore, trace))
  }

  /** Whatever has a floor has its canonical floor, and so has everything it depends on. */
  ghost predicate Placed(q: Manifest, ignore: set<string>, floorMap: map<string, nat>) {
    && ClosedUnderDeps(q, ignore, floorMap.Keys)
    && forall x :: x in floorMap ==> Resolves(q, ignore, x) && floorMap[x] == Floor(q, ignore, x)
  }

  /** `floors` is `floorMap` turned inside out: every placed app is on its floor, and nothing else is. */
  ghost predicate LaidOut(q: Manifest, floors: seq<seq<AppMeta>>, floorMap: map<string, nat>) {
    && (forall f, i :: 0 <= f < |floors| && 0 <= i < |floors[f]| ==> Sits(q, floorMap, floors[f][i], f))
    && (forall x :: x in floorMap ==> x in q && floorMap[x] < |floors| && q[x] in floors[floorMap[x]])
  }

  ghost predicate OnceEach(floors: seq<seq<AppMeta>>) {
    forall f, i, j :: 0 <= f < |floors| && 0 <= i < j < |floors[f]| ==> floors[f][i].name != floors[f][j].name
  }

  ghost predicate Sits(q: Manifest, floorMap: map<string, nat>, m: AppMeta, f: nat) {
    m.name in floorMap && floorMap[m.name] == f && m.name in q && q[m.name] == m
  }

  /** Two closures over the same names agree on every floor, however their roots were added. */
  lemma FloorMapIsCanonical(q: Manifest, ignore: set<string>, fm1: map<string, nat>, fm2: map<string, nat>)
    requires Placed(q, ignore, fm1) && Placed(q, ignore, fm2)
    requires fm1.Keys == fm2.Keys
    ensures fm1 == fm2
  {
  }

  function PutOnFloor(floors: seq<seq<AppMeta>>, floor: nat, m: AppMeta): seq<seq<AppMeta>>
    requires floor < |floors|
  {
    floors[floor := floors[floor] + [m]]
  }

  lemma PuttingKeepsLayout(q: Manifest, floors: seq<seq<AppMeta>>, floorMap: map<string, nat>, m: AppMeta, floor: nat)
    requires LaidOut(q, floors, floorMap) && OnceEach(floors)
    requires m.name !in floorMap && m.name in q && q[m.name] == m && floor < |floors|
    ensures LaidOut(q, PutOnFloor(floors, floor, m), floorMap[m.name := floor])
    ensures OnceEach(PutOnFloor(floors, floor, m))
  {
    var fs, fm := PutOnFloor(floors, floor, m), floorMap[m.name := floor];
    forall f, i | 0 <= f < |fs| && 0 <= i < |fs[f]| ensures Sits(q, fm, fs[f][i], f) {
      if f != floor || i < |floors[f]| {
        assert Sits(q, floorMap, floors[f][i], f);
      }
    }
    forall f, i, j | 0 <= f < |fs| && 0 <= i < j < |fs[f]| ensures fs[f][i].name != fs[f][j].name {
      assert Sits(q, floorMap, floors[f][i], f);
      if f == floor && j == |floors[f]| {
        assert fs[f][j] == m;
      } else {
        assert fs[f][j] == floors[f][j];
      }
    }
    forall x | x in fm ensures x in q && fm[x] < |fs| && q[x] in fs[fm[x]] {
      if x == m.name {
        assert fs[floor][|floors[floor]|] == m;
      } else {
        var i :| 0 <= i < |floors[floorMap[x]]| && floors[floorMap[x]][i] == q[x];
        assert fs[floorMap[x]][i] == q[x];
      }
    }
  }

  lemma PlacingKeepsPlaced(q: Manifest, ignore: set<string>, floorMap: map<string, nat>, name: string, floor: nat)
    requires Placed(q, ignore, floorMap)
    requires name in q && name !in ignore
    requires forall d :: d in q[name].deps ==> d in ignore || d in floorMap
    requires AllResolve(q, ignore, q[name].deps) && floor == FloorOver(q, ignore, q[name].deps)
    ensures Placed(q, ignore, floorMap[name := floor])
  {
    ResolvesUnfold(q, ignore, name);
    FloorUnfold(q, ignore, name);
  }

  lemma OneMoreDep(q: Manifest, ignore: set<string>, deps: seq<string>, i: nat)
    requires i < |deps| && AllResolve(q, ignore, deps[..i]) && Resolves(q, ignore, deps[i])
    ensures AllResolve(q, ignore, deps[..i + 1])
    ensures FloorOver(q, ignore, deps[..i + 1]) ==
            Max(FloorOver(q, ignore, deps[..i]), Floor(q, ignore, deps[i]) + 1)
    ensures Needs(q, ignore, SetOf(deps[..i + 1])) ==
            Needs(q, ignore, SetOf(deps[..i])) + Needs(q, ignore, {deps[i]})
  {
    var done := deps[..i + 1];
    assert done == deps[..i] + [deps[i]];
    SetOfSnoc(deps[..i], deps[i]);
    NeedsUnion(q, ignore, SetOf(deps[..i]), {deps[i]});
    assert done[..|done| - 1] == deps[..i] && Last(done) == deps[i];
  }

  lemma DepsArePlaced(q: Manifest, ignore: set<string>, name: string, before: set<string>, after: set<string>)
    requires name in q && name !in ignore && AllResolve(q, ignore, q[name].deps)
    requires after == before + Needs(q, ignore, SetOf(q[name].deps))
    ensures forall d :: d in q[name].deps ==> d in ignore || d in after
    ensures after + {name} == before + Needs(q, ignore, {name})
  {
    NeedsOfNode(q, ignore, name);
    NeedsIsClosed(q, ignore, SetOf(q[name].deps));
  }

  class AppClosure {
    var floors: seq<seq<AppMeta>>
    var floorMap: map<string, nat>
    var apps: map<string, AppMeta>
    var trace: seq<string>
    var traceMap: set<string>

    /**
     Well-formed while the names in `visiting` wait for their dependencies: they are known to
     `apps` but have no floor yet.
     */
    ghost predicate Valid(q: Manifest, ignore: set<string>, visiting: set<string>)
      reads this
    {
      && OnTrace(q, ignore, trace, traceMap)
      && Placed(q, ignore, floorMap)
      && LaidOut(q, floors, floorMap) && OnceEach(floors)
      && apps.Keys == floorMap.Keys + visiting
      && visiting !! floorMap.Keys
    }

    constructor ()
      ensures trace == [] && traceMap == {} && floorMap == map[]
      ensures forall q, ignore :: Valid(q, ignore, {})
    {
      floors, floorMap, apps, trace, traceMap := [], map[], map[], [], {};
      new;
      assert traceMap == SetOf(trace);
    }

    /**
     Adds `name` and everything it needs.  The result is the floor of `name`.

     The trace is the path of the recursion, so it bounds the depth: every nested call has one
     manifest name more on it.  An error is always a real defect of the manifest, and success
     means there is none (`Resolves`, hence not `Broken`).
     */
    method Add(q: Manifest, name: string, ignore: set<string>) returns (r: Result<nat, AddError>)
      requires Keyed(q) && Valid(q, ignore, traceMap)
      requires trace != [] ==> Edge(q, ignore, Last(trace), name)
      modifies this
      ensures trace == old(trace) && traceMap == old(traceMap)
      ensures r.Ok? ==> Valid(q, ignore, traceMap)
      ensures r.Ok? ==> Resolves(q, ignore, name) && r.value == Floor(q, ignore, name)
      ensures r.Ok? ==> floorMap.Keys == old(floorMap.Keys) + Needs(q, ignore, {name})
      ensures r.Err? ==> Explains(q, ignore, trace + [name], r.error)
      decreases q.Keys - traceMap, 3
    {
      if name in ignore {
        NeedsIgnored(q, ignore, name);
        IgnoredResolves(q, ignore, name);
        FloorUnfold(q, ignore, name);
        return Ok(0);
      }
      PushedIsWalk(q, ignore, trace, name);
      if name in traceMap {
        var i := FirstOnTrace(name);
        CircleIsExplained(q, ignore, trace, name, i);
        return Err(Circle(name, trace[i..]));
      }
      ghost var visiting := traceMap;
      traceMap := traceMap + {name};
      trace := trace + [name];
      r := Visit(q, name, ignore, visiting);
      // the deferred pop
      traceMap := traceMap - {name};
      trace := trace[..|trace| - 1];
      assert trace == old(trace) && traceMap == visiting;
    }

    /** The rest of `Add`, once `name` has been pushed. */
    method Visit(q: Manifest, name: string, ignore: set<string>, ghost visiting: set<string>)
      returns (r: Result<nat, AddError>)
      requires Keyed(q) && Valid(q, ignore, visiting)
      requires trace != [] && Last(trace) == name && name !in ignore
      requires name !in visiting && traceMap == visiting + {name}
      modifies this
      ensures trace == old(trace) && traceMap == old(traceMap)
      ensures r.Ok? ==> Valid(q, ignore, visiting)
      ensures r.Ok? ==> Resolves(q, ignore, name) && r.value == Floor(q, ignore, name)
      ensures r.Ok? ==> floorMap.Keys == old(floorMap.Keys) + Needs(q, ignore, {name})
      ensures r.Err? ==> Explains(q, ignore, trace, r.error)
      decreases q.Keys - visiting, 2
    {
      if name in floorMap {
        NeedsIsLeast(q, ignore, {name}, floorMap.Keys);
        return Ok(floorMap[name]);
      }
      if name !in q {
        assert trace + ImportChain(NotFound(name)) == trace;
        return Err(NotFound(name));
      }
      r := PutAboveDeps(q, q[name], ignore, visiting);
    }

    /** The dependencies first, then `m` on the floor above them. */
    method PutAboveDeps(q: Manifest, m: AppMeta, ignore: set<string>, ghost visiting: set<string>)
      returns (r: Result<nat, AddError>)
      requires Keyed(q) && Valid(q, ignore, visiting)
      requires trace != [] && Last(trace) == m.name && m.name !in ignore && m.name in q && q[m.name] == m
      requires m.name !in visiting && m.name !in floorMap && traceMap == visiting + {m.name}
      modifies this
      ensures trace == old(trace) && traceMap == old(traceMap)
      ensures r.Ok? ==> Valid(q, ignore, visiting)
      ensures r.Ok? ==> Resolves(q, ignore, m.name) && r.value == Floor(q, ignore, m.name)
      ensures r.Ok? ==> floorMap.Keys == old(floorMap.Keys) + Needs(q, ignore, {m.name})
      ensures r.Err? ==> Explains(q, ignore, trace, r.error)
      decreases q.Keys - visiting, 1
    {
      apps := apps[m.name := m];
      r := AddDeps(q, m, ignore, visiting);
      if r.Ok? {
        DepsArePlaced(q, ignore, m.name, old(floorMap.Keys), floorMap.Keys);
        Place(q, m, r.value, ignore, visiting);
      }
    }

    /** Adds the dependencies of `m` in order; the result is the floor above all of them. */
    method AddDeps(q: Manifest, m: AppMeta, ignore: set<string>, ghost visiting: set<string>)
      returns (r: Result<nat, AddError>)
      requires Keyed(q) && Valid(q, ignore, traceMap)
      requires trace != [] && Last(trace) == m.name && m.name !in ignore && m.name in q && q[m.name] == m
      requires m.name !in visiting && traceMap == visiting + {m.name}
      modifies this
      ensures trace == old(trace) && traceMap == old(traceMap)
      ensures r.Ok? ==> Valid(q, ignore, traceMap)
      ensures r.Ok? ==> AllResolve(q, ignore, m.deps) && r.value == FloorOver(q, ignore, m.deps)
      ensures r.Ok? ==> floorMap.Keys == old(floorMap.Keys) + Needs(q, ignore, SetOf(m.deps))
      ensures r.Err? ==> Explains(q, ignore, trace, r.error)
      decreases q.Keys - visiting, 0
    {
      var floor := 0;
      for i := 0 to |m.deps|
        invariant trace == old(trace) && traceMap == old(traceMap)
        invariant Valid(q, ignore, traceMap)
        invariant AllResolve(q, ignore, m.deps[..i]) && floor == FloorOver(q, ignore, m.deps[..i])
        invariant floorMap.Keys == old(floorMap.Keys) + Needs(q, ignore, SetOf(m.deps[..i]))
      {
        var dep := m.deps[i];
        assert m.name in q.Keys - visiting && m.name !in q.Keys - traceMap;
        var d := Add(q, dep, ignore);
        if d.Err? {
          ExplainsImport(q, ignore, trace, dep, d.error);
          return Err(Import(dep, d.error));
        }
        if floor <= d.value {
          floor := d.value + 1;
        }
        OneMoreDep(q, ignore, m.deps, i);
      }
      assert m.deps[..|m.deps|] == m.deps;
      return Ok(floor);
    }

    /** Appends `m` to its floor, growing the building as needed. */
    method Place(q: Manifest, m: AppMeta, floor: nat, ghost ignore: set<string>, ghost visiting: set<string>)
      requires Valid(q, ignore, visiting + {m.name})
      requires m.name in q && q[m.name] == m && m.name !in ignore && m.name !in visiting
      requires forall d :: d in m.deps ==> d in ignore || d in floorMap
      requires AllResolve(q, ignore, m.deps) && floor == FloorOver(q, ignore, m.deps)
      modifies `floors, `floorMap
      ensures Valid(q, ignore, visiting)
      ensures floorMap.Keys == old(floorMap.Keys) + {m.name}
      ensures Resolves(q, ignore, m.name) && floor == Floor(q, ignore, m.name)
    {
      Grow(q, floor);
      PuttingKeepsLayout(q, floors, floorMap, m, floor);
      PlacingKeepsPlaced(q, ignore, floorMap, m.name, floor);
      floors := PutOnFloor(floors, floor, m);
      floorMap := floorMap[m.name := floor];
      assert floorMap.Keys == old(floorMap.Keys) + {m.name};
      assert m.name in floorMap;
    }

    method Grow(ghost q: Manifest, floor: nat)
      requires LaidOut(q, floors, floorMap) && OnceEach(floors)
      modifies `floors
      ensures LaidOut(q, floors, floorMap) && OnceEach(floors) && floor < |floors|
    {
      while |floors| <= floor
        invariant LaidOut(q, floors, floorMap) && OnceEach(floors)
      {
        floors := floors + [[]];
      }
    }

    method FirstOnTrace(name: string) returns (i: nat)
      requires name in trace
      ensures i < |trace| && trace[i] == name && name !in trace[..i]
    {
      i := 0;
      while trace[i] != name
        invariant i < |trace| && name !in trace[..i]
        decreases |trace| - i
      {
        i := i + 1;
      }
    }

    /** The names of the closure. */
    method AppSet() returns (s: set<string>)
      ensures s == apps.Keys
    {
      s := {};
      var todo := apps.Keys;
      while todo != {}
        invariant s + todo == apps.Keys
        decreases todo
      {
        var name :| name in todo;
        s := s + {name};
        todo := todo - {name};
      }
    }

    /** The floors from the top down. */
    method RevFloors() returns (rev: seq<seq<AppMeta>>)
      ensures |rev| == |floors|
      ensures forall i :: 0 <= i < |floors| ==> rev[|floors| - 1 - i] == floors[i]
    {
      var n := |floors|;
      var a := new seq<AppMeta>[n];
      for i := 0 to n
        invariant forall k :: 0 <= k < i ==> a[n - 1 - k] == floors[k]
      {
        a[n - 1 - i] := floors[i];
      }
      rev := a[..];
    }
  }
}

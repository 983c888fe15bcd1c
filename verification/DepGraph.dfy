/**
 The dependency graph of a manifest, seen from a set of ignored names.

 An ignored name is a leaf that is already there; a name that is neither ignored nor in the
 manifest is a dead end.  Everything the closure builder promises is stated against the
 notions of this module: walks, the names a root needs, and the floor of a name.
 */
module DepGraph {
  import opened Basics
  import opened DrvApi

  ghost predicate Edge(q: Manifest, ignore: set<string>, a: string, b: string) {
    a !in ignore && a in q && b in q[a].deps
  }

  ghost predicate Walk(q: Manifest, ignore: set<string>, p: seq<string>) {
    |p| > 0 && forall i, j :: 0 <= i && j == i + 1 && j < |p| ==> Edge(q, ignore, p[i], p[j])
  }

  function Last(p: seq<string>): string
    requires |p| > 0
  {
    p[|p| - 1]
  }

  ghost predicate WalkBetween(q: Manifest, ignore: set<string>, p: seq<string>, a: string, b: string) {
    Walk(q, ignore, p) && p[0] == a && Last(p) == b
  }

  ghost predicate Reaches(q: Manifest, ignore: set<string>, a: string, b: string) {
    exists p :: WalkBetween(q, ignore, p, a, b)
  }

  /** The walk ends in a name that nobody knows. */
  ghost predicate DeadEnd(q: Manifest, ignore: set<string>, p: seq<string>) {
    Walk(q, ignore, p) && Last(p) !in q && Last(p) !in ignore
  }

  /** The walk comes back to a name it already passed. */
  ghost predicate Loops(q: Manifest, ignore: set<string>, p: seq<string>) {
    Walk(q, ignore, p) && Last(p) in p[..|p| - 1]
  }

  /** Something `a` needs, directly or not, is unknown or depends on itself. */
  ghost predicate Broken(q: Manifest, ignore: set<string>, a: string) {
    exists p :: (DeadEnd(q, ignore, p) || Loops(q, ignore, p)) && p[0] == a
  }

  // ---- Well-founded names -------------------------------------------------------------

  /** Everything below `a` bottoms out within `n` levels. */
  ghost predicate Grounded(q: Manifest, ignore: set<string>, a: string, n: nat)
    decreases n
  {
    a in ignore ||
    (n > 0 && a in q && forall d :: d in q[a].deps ==> Grounded(q, ignore, d, n - 1))
  }

  ghost predicate Resolves(q: Manifest, ignore: set<string>, a: string) {
    exists n: nat :: Grounded(q, ignore, a, n)
  }

  ghost predicate AllResolve(q: Manifest, ignore: set<string>, names: seq<string>) {
    forall d :: d in names ==> Resolves(q, ignore, d)
  }

  lemma {:induction false} GroundedMono(q: Manifest, ignore: set<string>, a: string, n: nat, m: nat)
    requires Grounded(q, ignore, a, n) && n <= m
    ensures Grounded(q, ignore, a, m)
    decreases n
  {
    if a !in ignore {
      forall d | d in q[a].deps ensures Grounded(q, ignore, d, m - 1) {
        GroundedMono(q, ignore, d, n - 1, m - 1);
      }
    }
  }

  lemma {:induction false} CommonGround(q: Manifest, ignore: set<string>, names: seq<string>) returns (n: nat)
    requires AllResolve(q, ignore, names)
    ensures forall d :: d in names ==> Grounded(q, ignore, d, n)
  {
    if names == [] {
      n := 0;
    } else {
      var k := CommonGround(q, ignore, names[1..]);
      assert Resolves(q, ignore, names[0]);
      var h: nat :| Grounded(q, ignore, names[0], h);
      n := Max(k, h);
      forall d | d in names ensures Grounded(q, ignore, d, n) {
        if d == names[0] {
          GroundedMono(q, ignore, d, h, n);
        } else {
          assert d in names[1..];
          GroundedMono(q, ignore, d, k, n);
        }
      }
    }
  }

  lemma ResolvesUnfold(q: Manifest, ignore: set<string>, a: string)
    requires a !in ignore
    ensures Resolves(q, ignore, a) <==> a in q && AllResolve(q, ignore, q[a].deps)
  {
    if Resolves(q, ignore, a) {
      var n: nat :| Grounded(q, ignore, a, n);
      assert forall d :: d in q[a].deps ==> Grounded(q, ignore, d, n - 1);
    }
    if a in q && AllResolve(q, ignore, q[a].deps) {
      var n := CommonGround(q, ignore, q[a].deps);
      assert Grounded(q, ignore, a, n + 1);
    }
  }

  lemma IgnoredResolves(q: Manifest, ignore: set<string>, a: string)
    requires a in ignore
    ensures Resolves(q, ignore, a)
  {
    assert Grounded(q, ignore, a, 0);
  }

  /** Ignoring more names cannot break one that resolves. */
  lemma {:induction false} IgnoringMoreKeepsGround(q: Manifest, less: set<string>, more: set<string>, a: string, n: nat)
    requires less <= more && Grounded(q, less, a, n)
    ensures Grounded(q, more, a, n)
    decreases n
  {
    if a !in more {
      forall d | d in q[a].deps ensures Grounded(q, more, d, n - 1) {
        IgnoringMoreKeepsGround(q, less, more, d, n - 1);
      }
    }
  }

  /** And ignoring names that resolve by themselves cannot mend one that does not. */
  lemma {:induction false} IgnoringSoundNamesMendsNothing(q: Manifest, ignore: set<string>, a: string, n: nat)
    requires Grounded(q, ignore, a, n)
    requires forall x :: x in ignore ==> Resolves(q, {}, x)
    ensures Resolves(q, {}, a)
    decreases n
  {
    if a !in ignore {
      forall d | d in q[a].deps ensures Resolves(q, {}, d) {
        IgnoringSoundNamesMendsNothing(q, ignore, d, n - 1);
      }
      ResolvesUnfold(q, {}, a);
    }
  }

  lemma ResolvesBesideSoundNames(q: Manifest, ignore: set<string>, a: string)
    requires forall x :: x in ignore ==> Resolves(q, {}, x)
    ensures Resolves(q, ignore, a) <==> Resolves(q, {}, a)
  {
    if Resolves(q, {}, a) {
      var n: nat :| Grounded(q, {}, a, n);
      IgnoringMoreKeepsGround(q, {}, ignore, a, n);
    }
    if Resolves(q, ignore, a) {
      var n: nat :| Grounded(q, ignore, a, n);
      IgnoringSoundNamesMendsNothing(q, ignore, a, n);
    }
  }

  /** A walk that starts on grounded ground has at most `n + 1` stops and no dead end. */
  lemma {:induction false} GroundedBoundsWalks(q: Manifest, ignore: set<string>, p: seq<string>, n: nat)
    requires Walk(q, ignore, p) && Grounded(q, ignore, p[0], n)
    ensures |p| <= n + 1
    ensures !DeadEnd(q, ignore, p)
  {
    if |p| > 1 {
      assert Edge(q, ignore, p[0], p[1]);
      WalkTail(q, ignore, p);
      GroundedBoundsWalks(q, ignore, p[1..], n - 1);
      assert Last(p[1..]) == Last(p);
    }
  }

  lemma WalkTail(q: Manifest, ignore: set<string>, p: seq<string>)
    requires Walk(q, ignore, p) && |p| > 1
    ensures Walk(q, ignore, p[1..])
  {
  }

  lemma WalkJoin(q: Manifest, ignore: set<string>, p: seq<string>, r: seq<string>)
    requires Walk(q, ignore, p) && Walk(q, ignore, r) && Last(p) == r[0]
    ensures Walk(q, ignore, p + r[1..]) && Last(p + r[1..]) == Last(r) && (p + r[1..])[0] == p[0]
  {
  }

  lemma WalkStep(q: Manifest, ignore: set<string>, a: string, b: string)
    requires Edge(q, ignore, a, b)
    ensures Walk(q, ignore, [a, b])
  {
  }

  lemma WalkSlice(q: Manifest, ignore: set<string>, p: seq<string>, lo: nat, hi: nat)
    requires Walk(q, ignore, p) && lo < hi <= |p|
    ensures Walk(q, ignore, p[lo..hi])
  {
  }

  /** Going round a loop once more gives a longer walk, so a grounded name has no loop below it. */
  lemma {:induction false} LoopPumps(q: Manifest, ignore: set<string>, p: seq<string>, n: nat) returns (w: seq<string>)
    requires Loops(q, ignore, p)
    ensures Walk(q, ignore, w) && w[0] == p[0] && Last(w) == Last(p) && |w| > n
  {
    if n == 0 {
      w := p;
    } else {
      var v := LoopPumps(q, ignore, p, n - 1);
      var i :| 0 <= i < |p| - 1 && p[i] == Last(p);
      WalkSlice(q, ignore, p, i, |p|);
      WalkJoin(q, ignore, v, p[i..]);
      w := v + p[i..][1..];
    }
  }

  lemma ResolvesIsNotBroken(q: Manifest, ignore: set<string>, a: string)
    requires Resolves(q, ignore, a)
    ensures !Broken(q, ignore, a)
  {
    var n: nat :| Grounded(q, ignore, a, n);
    forall p | (DeadEnd(q, ignore, p) || Loops(q, ignore, p)) && p[0] == a ensures false {
      GroundedBoundsWalks(q, ignore, p, n);
      var w := LoopPumps(q, ignore, p, n + 1);
      GroundedBoundsWalks(q, ignore, w, n);
    }
  }

  /** What does not resolve can be followed down until it ends nowhere or comes back. */
  lemma {:induction false} UnresolvedWalkBreaks(q: Manifest, ignore: set<string>, p: seq<string>)
    requires Walk(q, ignore, p) && !Resolves(q, ignore, Last(p))
    ensures Broken(q, ignore, p[0])
    decreases q.Keys - SetOf(p[..|p| - 1])
  {
    var a := Last(p);
    if a in ignore {
      IgnoredResolves(q, ignore, a);
    } else if a in p[..|p| - 1] {
      assert Loops(q, ignore, p);
    } else if a !in q {
      assert DeadEnd(q, ignore, p);
    } else {
      ResolvesUnfold(q, ignore, a);
      var d :| d in q[a].deps && !Resolves(q, ignore, d);
      WalkStep(q, ignore, a, d);
      WalkJoin(q, ignore, p, [a, d]);
      var w := p + [a, d][1..];
      assert w[..|w| - 1] == p == p[..|p| - 1] + [a];
      assert a in q.Keys - SetOf(p[..|p| - 1]) && a !in q.Keys - SetOf(w[..|w| - 1]);
      UnresolvedWalkBreaks(q, ignore, w);
    }
  }

  /** A name resolves exactly when nothing below it is unknown or circular. */
  lemma ResolvesIffNotBroken(q: Manifest, ignore: set<string>, a: string)
    ensures Resolves(q, ignore, a) <==> !Broken(q, ignore, a)
  {
    if Resolves(q, ignore, a) {
      ResolvesIsNotBroken(q, ignore, a);
    } else {
      assert Walk(q, ignore, [a]);
      UnresolvedWalkBreaks(q, ignore, [a]);
    }
  }

  // ---- The names a set of roots needs ---------------------------------------------------

  ghost function Needs(q: Manifest, ignore: set<string>, roots: set<string>): set<string> {
    set b | b in q && b !in ignore && exists r :: r in roots && Reaches(q, ignore, r, b)
  }

  /** `s` holds known, non-ignored names, and with each of them all its dependencies. */
  ghost predicate ClosedUnderDeps(q: Manifest, ignore: set<string>, s: set<string>) {
    forall x :: x in s ==>
      x in q && x !in ignore && forall d :: d in q[x].deps ==> d in ignore || d in s
  }

  lemma NeedsHasRoots(q: Manifest, ignore: set<string>, roots: set<string>)
    ensures forall r :: r in roots && r in q && r !in ignore ==> r in Needs(q, ignore, roots)
  {
    forall r | r in roots && r in q && r !in ignore ensures r in Needs(q, ignore, roots) {
      assert WalkBetween(q, ignore, [r], r, r);
    }
  }

  lemma {:induction false} ReachedStaysInside(q: Manifest, ignore: set<string>, s: set<string>, p: seq<string>)
    requires ClosedUnderDeps(q, ignore, s) && Walk(q, ignore, p) && (p[0] in s || p[0] in ignore)
    ensures Last(p) in s || Last(p) in ignore
  {
    if |p| > 1 {
      assert Edge(q, ignore, p[0], p[1]);
      WalkTail(q, ignore, p);
      ReachedStaysInside(q, ignore, s, p[1..]);
      assert Last(p[1..]) == Last(p);
    }
  }

  /** No closed set that covers the roots is smaller than what they need. */
  lemma NeedsIsLeast(q: Manifest, ignore: set<string>, roots: set<string>, s: set<string>)
    requires ClosedUnderDeps(q, ignore, s) && roots <= s + ignore
    ensures Needs(q, ignore, roots) <= s
  {
    forall b | b in Needs(q, ignore, roots) ensures b in s {
      var r :| r in roots && Reaches(q, ignore, r, b);
      var p :| WalkBetween(q, ignore, p, r, b);
      ReachedStaysInside(q, ignore, s, p);
    }
  }

  lemma {:induction false} WalkKeepsResolving(q: Manifest, ignore: set<string>, p: seq<string>)
    requires Walk(q, ignore, p) && Resolves(q, ignore, p[0])
    ensures Resolves(q, ignore, Last(p))
  {
    if |p| > 1 {
      assert Edge(q, ignore, p[0], p[1]);
      ResolvesUnfold(q, ignore, p[0]);
      WalkTail(q, ignore, p);
      WalkKeepsResolving(q, ignore, p[1..]);
      assert Last(p[1..]) == Last(p);
    }
  }

  /** When the roots resolve, what they need is itself closed; with NeedsIsLeast: the least such set. */
  lemma NeedsIsClosed(q: Manifest, ignore: set<string>, roots: set<string>)
    requires forall r :: r in roots ==> Resolves(q, ignore, r)
    ensures ClosedUnderDeps(q, ignore, Needs(q, ignore, roots))
    ensures roots <= Needs(q, ignore, roots) + ignore
    ensures forall b :: b in Needs(q, ignore, roots) ==> Resolves(q, ignore, b)
  {
    forall b | b in Needs(q, ignore, roots)
      ensures Resolves(q, ignore, b)
      ensures forall d :: d in q[b].deps ==> d in ignore || d in Needs(q, ignore, roots)
    {
      var r :| r in roots && Reaches(q, ignore, r, b);
      var p :| WalkBetween(q, ignore, p, r, b);
      WalkKeepsResolving(q, ignore, p);
      ResolvesUnfold(q, ignore, b);
      forall d | d in q[b].deps && d !in ignore ensures d in Needs(q, ignore, roots) {
        ResolvesUnfold(q, ignore, d);
        WalkStep(q, ignore, b, d);
        WalkJoin(q, ignore, p, [b, d]);
        assert WalkBetween(q, ignore, p + [b, d][1..], r, d);
      }
    }
    forall r | r in roots ensures r in Needs(q, ignore, roots) + ignore {
      if r !in ignore {
        ResolvesUnfold(q, ignore, r);
        NeedsHasRoots(q, ignore, roots);
      }
    }
  }

  lemma NeedsUnion(q: Manifest, ignore: set<string>, r1: set<string>, r2: set<string>)
    ensures Needs(q, ignore, r1 + r2) == Needs(q, ignore, r1) + Needs(q, ignore, r2)
  {
  }

  lemma NeedsIgnored(q: Manifest, ignore: set<string>, a: string)
    requires a in ignore
    ensures Needs(q, ignore, {a}) == {}
  {
    assert ClosedUnderDeps(q, ignore, {});
    NeedsIsLeast(q, ignore, {a}, {});
  }

  lemma NeedsOfNode(q: Manifest, ignore: set<string>, a: string)
    requires a !in ignore && a in q
    ensures Needs(q, ignore, {a}) == {a} + Needs(q, ignore, SetOf(q[a].deps))
  {
    NeedsHasRoots(q, ignore, {a});
    var deps := SetOf(q[a].deps);
    forall b | b in Needs(q, ignore, {a}) && b != a ensures b in Needs(q, ignore, deps) {
      assert Reaches(q, ignore, a, b);
      var p :| WalkBetween(q, ignore, p, a, b);
      assert Edge(q, ignore, p[0], p[1]);
      WalkTail(q, ignore, p);
      assert WalkBetween(q, ignore, p[1..], p[1], b);
      assert p[1] in deps && Reaches(q, ignore, p[1], b);
    }
    forall b | b in Needs(q, ignore, deps) ensures b in Needs(q, ignore, {a}) {
      var d :| d in deps && Reaches(q, ignore, d, b);
      var p :| WalkBetween(q, ignore, p, d, b);
      WalkStep(q, ignore, a, d);
      WalkJoin(q, ignore, [a, d], p);
      assert WalkBetween(q, ignore, [a, d] + p[1..], a, b);
    }
  }

  // ---- Floors ----------------------------------------------------------------------------

  /** One above the highest of `deps`; 0 when there are none. */
  ghost function FloorAbove(q: Manifest, ignore: set<string>, deps: seq<string>, n: nat): nat
    requires forall d :: d in deps ==> Grounded(q, ignore, d, n)
    decreases n, 1, |deps|
  {
    if deps == [] then 0
    else Max(FloorAbove(q, ignore, deps[..|deps| - 1], n), FloorAt(q, ignore, Last(deps), n) + 1)
  }

  ghost function FloorAt(q: Manifest, ignore: set<string>, a: string, n: nat): nat
    requires Grounded(q, ignore, a, n)
    decreases n, 0
  {
    if a in ignore then 0 else FloorAbove(q, ignore, q[a].deps, n - 1)
  }

  lemma {:induction false} FloorAtStable(q: Manifest, ignore: set<string>, a: string, n: nat, m: nat)
    requires Grounded(q, ignore, a, n) && Grounded(q, ignore, a, m)
    ensures FloorAt(q, ignore, a, n) == FloorAt(q, ignore, a, m)
    decreases n, 0
  {
    if a !in ignore {
      FloorAboveStable(q, ignore, q[a].deps, n - 1, m - 1);
    }
  }

  lemma {:induction false} FloorAboveStable(q: Manifest, ignore: set<string>, deps: seq<string>, n: nat, m: nat)
    requires forall d :: d in deps ==> Grounded(q, ignore, d, n) && Grounded(q, ignore, d, m)
    ensures FloorAbove(q, ignore, deps, n) == FloorAbove(q, ignore, deps, m)
    decreases n, 1, |deps|
  {
    if deps != [] {
      FloorAboveStable(q, ignore, deps[..|deps| - 1], n, m);
      FloorAtStable(q, ignore, Last(deps), n, m);
    }
  }

  /** The floor of a name; it depends on the manifest and the ignored names alone. */
  ghost function Floor(q: Manifest, ignore: set<string>, a: string): nat
    requires Resolves(q, ignore, a)
  {
    var n: nat :| Grounded(q, ignore, a, n);
    FloorAt(q, ignore, a, n)
  }

  ghost function FloorOver(q: Manifest, ignore: set<string>, deps: seq<string>): nat
    requires AllResolve(q, ignore, deps)
  {
    if deps == [] then 0
    else Max(FloorOver(q, ignore, deps[..|deps| - 1]), Floor(q, ignore, Last(deps)) + 1)
  }

  lemma {:induction false} FloorOverIsFloorAbove(q: Manifest, ignore: set<string>, deps: seq<string>, n: nat)
    requires forall d :: d in deps ==> Grounded(q, ignore, d, n)
    ensures AllResolve(q, ignore, deps)
    ensures FloorOver(q, ignore, deps) == FloorAbove(q, ignore, deps, n)
  {
    assert AllResolve(q, ignore, deps);
    if deps != [] {
      FloorOverIsFloorAbove(q, ignore, deps[..|deps| - 1], n);
      var a := Last(deps);
      var k: nat :| Grounded(q, ignore, a, k) && Floor(q, ignore, a) == FloorAt(q, ignore, a, k);
      FloorAtStable(q, ignore, a, k, n);
    }
  }

  /** The recurrence the closure builder computes. */
  lemma FloorUnfold(q: Manifest, ignore: set<string>, a: string)
    requires Resolves(q, ignore, a)
    ensures a in ignore ==> Floor(q, ignore, a) == 0
    ensures a !in ignore ==> a in q && AllResolve(q, ignore, q[a].deps)
    ensures a !in ignore ==> Floor(q, ignore, a) == FloorOver(q, ignore, q[a].deps)
  {
    var n: nat :| Grounded(q, ignore, a, n) && Floor(q, ignore, a) == FloorAt(q, ignore, a, n);
    if a !in ignore {
      assert forall d :: d in q[a].deps ==> Grounded(q, ignore, d, n - 1);
      FloorOverIsFloorAbove(q, ignore, q[a].deps, n - 1);
      assert FloorAt(q, ignore, a, n) == FloorAbove(q, ignore, q[a].deps, n - 1);
    }
  }

  lemma {:induction false} FloorOverDominates(q: Manifest, ignore: set<string>, deps: seq<string>, d: string)
    requires AllResolve(q, ignore, deps) && d in deps
    ensures Floor(q, ignore, d) < FloorOver(q, ignore, deps)
  {
    if d != Last(deps) {
      FloorOverDominates(q, ignore, deps[..|deps| - 1], d);
    }
  }

  lemma {:induction false} FloorOverAttained(q: Manifest, ignore: set<string>, deps: seq<string>) returns (d: string)
    requires AllResolve(q, ignore, deps) && deps != []
    ensures d in deps && Floor(q, ignore, d) + 1 == FloorOver(q, ignore, deps)
  {
    d := Last(deps);
    if |deps| == 1 {
      assert deps[..0] == [] && FloorOver(q, ignore, deps[..0]) == 0;
    } else if Floor(q, ignore, d) + 1 != FloorOver(q, ignore, deps) {
      d := FloorOverAttained(q, ignore, deps[..|deps| - 1]);
    }
  }

  lemma DepIsLower(q: Manifest, ignore: set<string>, a: string, d: string)
    requires Resolves(q, ignore, a) && Edge(q, ignore, a, d)
    ensures Resolves(q, ignore, d) && Floor(q, ignore, d) < Floor(q, ignore, a)
  {
    FloorUnfold(q, ignore, a);
    FloorOverDominates(q, ignore, q[a].deps, d);
  }

  /** No dependency chain below `a` is longer than its floor. */
  lemma {:induction false} FloorBoundsChains(q: Manifest, ignore: set<string>, p: seq<string>)
    requires Walk(q, ignore, p) && Resolves(q, ignore, p[0])
    ensures |p| <= Floor(q, ignore, p[0]) + 1
  {
    if |p| > 1 {
      assert Edge(q, ignore, p[0], p[1]);
      DepIsLower(q, ignore, p[0], p[1]);
      WalkTail(q, ignore, p);
      FloorBoundsChains(q, ignore, p[1..]);
    }
  }

  /** And some chain is exactly that long. */
  lemma {:induction false} FloorIsAChain(q: Manifest, ignore: set<string>, a: string) returns (p: seq<string>)
    requires Resolves(q, ignore, a)
    ensures Walk(q, ignore, p) && p[0] == a && |p| == Floor(q, ignore, a) + 1
    decreases Floor(q, ignore, a)
  {
    FloorUnfold(q, ignore, a);
    if a in ignore || q[a].deps == [] {
      p := [a];
    } else {
      var d := FloorOverAttained(q, ignore, q[a].deps);
      DepIsLower(q, ignore, a, d);
      var r := FloorIsAChain(q, ignore, d);
      WalkStep(q, ignore, a, d);
      WalkJoin(q, ignore, [a, d], r);
      p := [a, d] + r[1..];
    }
  }

  /** A name's floor is the length of the longest dependency chain that starts at it. */
  lemma FloorIsLongestChain(q: Manifest, ignore: set<string>, a: string, k: nat)
    requires Resolves(q, ignore, a)
    ensures Floor(q, ignore, a) == k <==>
              && (exists p :: Walk(q, ignore, p) && p[0] == a && |p| == k + 1)
              && (forall p :: Walk(q, ignore, p) && p[0] == a ==> |p| <= k + 1)
  {
    var c := FloorIsAChain(q, ignore, a);
    forall p | Walk(q, ignore, p) && p[0] == a ensures |p| <= Floor(q, ignore, a) + 1 {
      FloorBoundsChains(q, ignore, p);
    }
  }
}

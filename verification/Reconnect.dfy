/**
 doorway/reconnect_listener.go: a listener that redials, as a transition system.

 One background worker dials, accepts and hands over; for each listener a watcher waits to close
 it when the whole thing is closed.  Listeners and connections are told apart by ids.
*/
module Reconnect {
  import opened Basics

  datatype Worker =
    | Dialing
    | Dialed(lis: nat)                 // a fresh listener, not served yet
    | Checking(lis: nat)               // the top of the accept loop
    | Accepting(lis: nat)
    | Offering(lis: nat, conn: nat)
    | Leaving(lis: nat)                // out of the loop; tells the watcher first
    | ClosingListener(lis: nat)        // then closes the listener
    | Sleeping
    | LoopTop
    | Stopped

  datatype State = State(
    worker: Worker,
    dialed: set<nat>,                  // every listener ever dialed
    open: set<nat>,                    // those not closed yet
    watchers: set<nat>,                // listeners whose watcher is still there
    done: set<nat>,                    // listeners whose watcher was told to go
    closed: bool,
    accepted: seq<nat>,
    delivered: seq<nat>)

  ghost predicate Init(s: State, first: nat) {
    s == State(Dialed(first), {first}, {first}, {}, {}, false, [], [])
  }

  datatype Step =
    | DialSucceeds(lis: nat) | DialFails
    | Serve                            // remember the address, start the watcher
    | Check
    | Accept(conn: nat) | AcceptFails
    | HandOver | Abandon
    | TellWatcher | CloseListener
    | Wake | Loop
    | WatcherLeaves(lis: nat) | WatcherCloses(lis: nat)
    | Close

  ghost predicate Next(s: State, e: Step, s': State) {
    match e
    case DialSucceeds(lis) =>
      s.worker.Dialing? && lis !in s.dialed &&
      s' == s.(worker := Dialed(lis), dialed := s.dialed + {lis}, open := s.open + {lis})
    case DialFails => s.worker.Dialing? && s' == s.(worker := Sleeping)
    case Serve =>
      s.worker.Dialed? && s' == s.(worker := Checking(s.worker.lis), watchers := s.watchers + {s.worker.lis})
    case Check =>
      s.worker.Checking? && s' == s.(worker := if s.closed then Leaving(s.worker.lis) else Accepting(s.worker.lis))
    case Accept(conn) =>
      s.worker.Accepting? && s.worker.lis in s.open && conn !in s.accepted &&
      s' == s.(worker := Offering(s.worker.lis, conn), accepted := s.accepted + [conn])
    case AcceptFails => s.worker.Accepting? && s' == s.(worker := Leaving(s.worker.lis))
    case HandOver =>
      s.worker.Offering? && s' == s.(worker := Checking(s.worker.lis), delivered := s.delivered + [s.worker.conn])
    case Abandon => s.worker.Offering? && s.closed && s' == s.(worker := Leaving(s.worker.lis))
    case TellWatcher =>
      s.worker.Leaving? && s' == s.(worker := ClosingListener(s.worker.lis), done := s.done + {s.worker.lis})
    case CloseListener =>
      s.worker.ClosingListener? && s' == s.(worker := Sleeping, open := s.open - {s.worker.lis})
    case Wake => s.worker.Sleeping? && s' == s.(worker := LoopTop)
    case Loop => s.worker.LoopTop? && s' == s.(worker := if s.closed then Stopped else Dialing)
    case WatcherLeaves(lis) => lis in s.watchers && lis in s.done && s' == s.(watchers := s.watchers - {lis})
    case WatcherCloses(lis) =>
      lis in s.watchers && s.closed && s' == s.(watchers := s.watchers - {lis}, open := s.open - {lis})
    case Close => !s.closed && s' == s.(closed := true)
  }

  /** The listener the worker is responsible for. */
  function Held(w: Worker): set<nat> {
    match w
    case Dialed(lis) => {lis}
    case Checking(lis) => {lis}
    case Accepting(lis) => {lis}
    case Offering(lis, _) => {lis}
    case Leaving(lis) => {lis}
    case ClosingListener(lis) => {lis}
    case _ => {}
  }

  predicate Serving(w: Worker) {
    w.Checking? || w.Accepting? || w.Offering?
  }

  /** The worker is past the last hand-over it could make. */
  predicate WindingDown(w: Worker) {
    w.Leaving? || w.ClosingListener? || w.Sleeping? || w.LoopTop? || w.Stopped?
  }

  ghost predicate Accounted(s: State) {
    if s.worker.Offering? then s.accepted == s.delivered + [s.worker.conn]
    else
      || s.accepted == s.delivered
      || (s.closed && WindingDown(s.worker) && |s.accepted| > 0 && s.accepted[..|s.accepted| - 1] == s.delivered)
  }

  ghost predicate Inv(s: State) {
    && s.open <= Held(s.worker)
    && Held(s.worker) + s.watchers + s.done <= s.dialed
    && (Serving(s.worker) ==> s.worker.lis !in s.done && (s.worker.lis in s.open ==> s.worker.lis in s.watchers))
    && (s.worker.Dialed? ==> s.worker.lis !in s.done)
    && s.watchers <= s.done + Held(s.worker)
    && (s.worker.ClosingListener? ==> s.worker.lis in s.done)
    && (s.worker.Stopped? ==> s.closed)
    && (!s.closed && (Serving(s.worker) || s.worker.Dialed?) ==> s.worker.lis in s.open)
    && NoRepeats(s.accepted)
    && Accounted(s)
  }

  lemma AccountedStep(s: State, e: Step, s': State)
    requires NoRepeats(s.accepted) && Accounted(s) && Next(s, e, s')
    ensures NoRepeats(s'.accepted) && Accounted(s')
  {
    match e {
      case Accept(conn) => NoRepeatsSnoc(s.accepted, conn);
      case Abandon => assert s'.accepted[..|s'.accepted| - 1] == s'.delivered;
      case _ =>
    }
  }

  lemma InvStep(s: State, e: Step, s': State)
    requires Inv(s) && Next(s, e, s')
    ensures Inv(s')
  {
    AccountedStep(s, e, s');
  }

  ghost predicate Run(first: nat, ss: seq<State>, es: seq<Step>) {
    && |ss| == |es| + 1 && Init(ss[0], first)
    && forall i, j :: 0 <= i < |es| && j == i + 1 ==> Next(ss[i], es[i], ss[j])
  }

  lemma {:induction false} RunInv(first: nat, ss: seq<State>, es: seq<Step>, i: nat)
    requires Run(first, ss, es) && i < |ss|
    ensures Inv(ss[i])
    decreases i
  {
    if i > 0 {
      RunInv(first, ss, es, i - 1);
      assert Next(ss[i - 1], es[i - 1], ss[i]);
      InvStep(ss[i - 1], es[i - 1], ss[i]);
    }
  }

  /** However often it redials, at most one listener is open at a time. */
  lemma AtMostOneOpen(first: nat, ss: seq<State>, es: seq<Step>, i: nat, a: nat, b: nat)
    requires Run(first, ss, es) && i < |ss|
    requires a in ss[i].open && b in ss[i].open
    ensures a == b
  {
    RunInv(first, ss, es, i);
  }

  /** Over all redials, callers get the accepted connections in order; one at most is missing, and only at the end. */
  lemma DeliveryIsFaithful(first: nat, ss: seq<State>, es: seq<Step>, i: nat)
    requires Run(first, ss, es) && i < |ss|
    ensures var s := ss[i];
      && s.delivered <= s.accepted && |s.accepted| <= |s.delivered| + 1 && NoRepeats(s.delivered)
      && (s.accepted != s.delivered ==> s.worker.Offering? || (s.closed && WindingDown(s.worker)))
  {
    RunInv(first, ss, es, i);
  }

  ghost predicate Stretch(s: State, ss: seq<State>, es: seq<Step>) {
    && |ss| == |es| + 1 && ss[0] == s
    && forall i, j :: 0 <= i < |es| && j == i + 1 ==> Next(ss[i], es[i], ss[j])
  }

  lemma StretchCons(s: State, e: Step, ss: seq<State>, es: seq<Step>)
    requires |ss| > 0 && Next(s, e, ss[0]) && Stretch(ss[0], ss, es)
    ensures Stretch(s, [s] + ss, [e] + es)
  {
    forall i, j | 0 <= i < |es| + 1 && j == i + 1 ensures Next(([s] + ss)[i], ([e] + es)[i], ([s] + ss)[j]) {
      if i > 0 {
        assert Next(ss[i - 1], es[i - 1], ss[j - 1]);
      }
    }
  }

  lemma StretchJoin(s: State, ss1: seq<State>, es1: seq<Step>, ss2: seq<State>, es2: seq<Step>)
    requires Stretch(s, ss1, es1) && Stretch(ss1[|es1|], ss2, es2)
    ensures Stretch(s, ss1 + ss2[1..], es1 + es2)
    ensures (ss1 + ss2[1..])[|es1 + es2|] == ss2[|es2|]
  {
    var ss, es := ss1 + ss2[1..], es1 + es2;
    forall i, j | 0 <= i < |es| && j == i + 1 ensures Next(ss[i], es[i], ss[j]) {
      if i < |es1| {
        assert Next(ss1[i], es1[i], ss1[j]);
      } else {
        assert Next(ss2[i - |es1|], es2[i - |es1|], ss2[j - |es1|]);
        assert ss[i] == ss2[i - |es1|] && ss[j] == ss2[j - |es1|];
      }
    }
  }

  // ---- Redialing ----------------------------------------------------------------------------------

  /** The worker has lost its listener, or has none yet. */
  predicate Lost(w: Worker) {
    w.Leaving? || w.ClosingListener? || w.Sleeping? || w.LoopTop? || w.Dialing?
  }

  function StepsToTheDial(w: Worker): nat {
    match w
    case Leaving(_) => 4
    case ClosingListener(_) => 3
    case Sleeping => 2
    case LoopTop => 1
    case _ => 0
  }

  /** Steps that wait for nobody outside; an accept is sure to fail once its listener is closed. */
  ghost predicate Forced(s: State, e: Step) {
    match e
    case AcceptFails => s.worker.Accepting? && s.worker.lis !in s.open
    case DialFails => true     // a dial comes back, one way or the other
    case Serve => true
    case Check => true
    case Abandon => true
    case TellWatcher => true
    case CloseListener => true
    case Wake => true
    case Loop => true
    case WatcherLeaves(_) => true
    case WatcherCloses(_) => true
    case _ => false
  }

  /** Left alone, a worker without a listener goes back to dialing. */
  lemma {:induction false} ReachesTheDial(s: State) returns (ss: seq<State>, es: seq<Step>)
    requires Inv(s) && !s.closed && Lost(s.worker)
    ensures Stretch(s, ss, es) && forall k :: 0 <= k < |es| ==> Forced(ss[k], es[k])
    ensures var last := ss[|es|];
      && Inv(last) && last.worker.Dialing? && !last.closed
      && last.dialed == s.dialed && last.accepted == s.accepted && last.delivered == s.delivered
    decreases StepsToTheDial(s.worker)
  {
    if s.worker.Dialing? {
      ss, es := [s], [];
    } else {
      var e, s' := TellWatcher, s;
      match s.worker {
        case Leaving(lis) => e, s' := TellWatcher, s.(worker := ClosingListener(lis), done := s.done + {lis});
        case ClosingListener(lis) => e, s' := CloseListener, s.(worker := Sleeping, open := s.open - {lis});
        case Sleeping => e, s' := Wake, s.(worker := LoopTop);
        case LoopTop => e, s' := Loop, s.(worker := Dialing);
      }
      InvStep(s, e, s');
      var ss', es' := ReachesTheDial(s');
      StretchCons(s, e, ss', es');
      ss, es := [s] + ss', [e] + es';
    }
  }

  /** From the dial to a caller: the steps by which a fresh listener brings in a fresh connection. */
  lemma {:induction false} FreshListenerServes(s: State, lis: nat, conn: nat) returns (ss: seq<State>, es: seq<Step>)
    requires Inv(s) && !s.closed && s.worker.Dialing? && lis !in s.dialed && conn !in s.accepted
    ensures Stretch(s, ss, es) && |es| > 0 && es[0] == DialSucceeds(lis) && forall e :: e in es ==> !e.Close?
    ensures var last := ss[|es|];
      !last.closed && last.dialed == s.dialed + {lis} && last.delivered == s.delivered + [conn]
  {
    var s1 := s.(worker := Dialed(lis), dialed := s.dialed + {lis}, open := s.open + {lis});
    var s2 := s1.(worker := Checking(lis), watchers := s1.watchers + {lis});
    var s3 := s2.(worker := Accepting(lis));
    var s4 := s3.(worker := Offering(lis, conn), accepted := s3.accepted + [conn]);
    var s5 := s4.(worker := Checking(lis), delivered := s4.delivered + [conn]);
    ss, es := [s, s1, s2, s3, s4, s5], [DialSucceeds(lis), Serve, Check, Accept(conn), HandOver];
  }

  /**
   A listener that is lost is replaced: by itself the worker comes to dial again, whatever it has been
   through, and any fresh listener it then gets can bring any fresh connection to a caller.
   */
  lemma {:induction false} RedialsAndDelivers(s: State, lis: nat, conn: nat)
    returns (ss: seq<State>, es: seq<Step>, k: nat)
    requires Inv(s) && !s.closed && Lost(s.worker) && lis !in s.dialed && conn !in s.accepted
    ensures Stretch(s, ss, es) && k < |es| && es[k] == DialSucceeds(lis)
    ensures forall j :: 0 <= j < k ==> Forced(ss[j], es[j])
    ensures forall e :: e in es ==> !e.Close?
    ensures var last := ss[|es|];
      !last.closed && lis in last.dialed && last.delivered == s.delivered + [conn]
  {
    var ss1, es1 := ReachesTheDial(s);
    var ss2, es2 := FreshListenerServes(ss1[|es1|], lis, conn);
    StretchJoin(s, ss1, es1, ss2, es2);
    ss, es, k := ss1 + ss2[1..], es1 + es2, |es1|;
    forall e | e in es ensures !e.Close? {
      var j :| 0 <= j < |es| && es[j] == e;
      if j < |es1| {
        assert Forced(ss1[j], es1[j]);
      } else {
        assert es2[j - |es1|] in es2;
      }
    }
  }

  /** No watcher outlives its listener: once that is lost, or the whole thing is closed, it can go. */
  lemma {:induction false} WatchersMayGo(s: State, lis: nat)
    requires Inv(s) && lis in s.watchers
    ensures s.closed || s.worker.ClosingListener? || lis !in Held(s.worker) ==>
              exists e, s' :: Next(s, e, s') && Forced(s, e) && s'.watchers == s.watchers - {lis}
  {
    if s.closed {
      assert Next(s, WatcherCloses(lis), s.(watchers := s.watchers - {lis}, open := s.open - {lis}));
    } else if s.worker.ClosingListener? || lis !in Held(s.worker) {
      assert Next(s, WatcherLeaves(lis), s.(watchers := s.watchers - {lis}));
    }
  }

  /** While it is open and has a listener, that listener brings in a fresh connection, or may be lost. */
  lemma {:induction false} OpenListenerServesOrIsLost(s: State, conn: nat) returns (s1: State, s2: State, lost: State)
    requires Inv(s) && !s.closed && s.worker.Accepting? && conn !in s.accepted
    ensures Next(s, Accept(conn), s1) && Next(s1, HandOver, s2) && s2.delivered == s.delivered + [conn]
    ensures Next(s, AcceptFails, lost) && Lost(lost.worker)
  {
    var lis := s.worker.lis;
    s1 := s.(worker := Offering(lis, conn), accepted := s.accepted + [conn]);
    s2 := s1.(worker := Checking(lis), delivered := s1.delivered + [conn]);
    lost := s.(worker := Leaving(lis));
  }

  // ---- Closing ------------------------------------------------------------------------------------

  function WorkerRank(w: Worker): nat {
    match w
    case Dialing => 9
    case Dialed(_) => 8
    case Accepting(_) => 7
    case Offering(_, _) => 6
    case Checking(_) => 5
    case Leaving(_) => 4
    case ClosingListener(_) => 3
    case Sleeping => 2
    case LoopTop => 1
    case Stopped => 0
  }

  function Rank(s: State): nat {
    WorkerRank(s.worker) + |s.watchers|
  }

  lemma {:induction false} OneWatcherLess(s: State, s': State, lis: nat)
    requires lis in s.watchers && s'.watchers == s.watchers - {lis} && s'.worker == s.worker
    ensures Rank(s') < Rank(s)
  {
    assert s.watchers == s'.watchers + {lis};
  }

  lemma {:induction false} RankFalls(s: State, e: Step, s': State)
    requires s.closed && Next(s, e, s')
    ensures s'.closed && Rank(s') < Rank(s)
  {
    match e {
      case WatcherLeaves(lis) => OneWatcherLess(s, s', lis);
      case WatcherCloses(lis) => OneWatcherLess(s, s', lis);
      case Serve => assert |s'.watchers| <= |s.watchers| + 1;
      case _ => assert s'.watchers == s.watchers;
    }
  }

  /** After `Close`, every step brings the end nearer. */
  lemma {:induction false} ClosingOnlyWindsDown(s: State, e: Step, s': State)
    requires Inv(s) && s.closed && Next(s, e, s')
    ensures Inv(s') && s'.closed && Rank(s') < Rank(s)
  {
    InvStep(s, e, s');
    RankFalls(s, e, s');
  }

  /** And until everything is gone there is a step that waits for nobody. */
  lemma ClosingCanAlwaysGoOn(s: State) returns (e: Step, s': State)
    requires Inv(s) && s.closed && !(s.worker.Stopped? && s.watchers == {})
    ensures Next(s, e, s') && Forced(s, e)
  {
    if s.watchers != {} {
      var lis :| lis in s.watchers;
      e, s' := WatcherCloses(lis), s.(watchers := s.watchers - {lis}, open := s.open - {lis});
    } else {
      match s.worker {
        case Dialing => e, s' := DialFails, s.(worker := Sleeping);
        case Dialed(lis) => e, s' := Serve, s.(worker := Checking(lis), watchers := s.watchers + {lis});
        case Checking(lis) => e, s' := Check, s.(worker := Leaving(lis));
        case Accepting(lis) => e, s' := AcceptFails, s.(worker := Leaving(lis));
        case Offering(lis, _) => e, s' := Abandon, s.(worker := Leaving(lis));
        case Leaving(lis) => e, s' := TellWatcher, s.(worker := ClosingListener(lis), done := s.done + {lis});
        case ClosingListener(lis) => e, s' := CloseListener, s.(worker := Sleeping, open := s.open - {lis});
        case Sleeping => e, s' := Wake, s.(worker := LoopTop);
        case LoopTop => e, s' := Loop, s.(worker := Stopped);
      }
    }
  }

  /** How many connections a closed listener may still hand over: the one it has or is about to get. */
  function LateHandOvers(s: State): nat {
    if s.worker.Accepting? || s.worker.Offering? then 1 else 0
  }

  lemma LateHandOversRunOut(s: State, e: Step, s': State)
    requires s.closed && Next(s, e, s')
    ensures LateHandOvers(s') + (if e.HandOver? then 1 else 0) <= LateHandOvers(s)
  {
  }

  lemma {:induction false} StretchWindsDown(s: State, ss: seq<State>, es: seq<Step>, i: nat)
    requires Inv(s) && s.closed && Stretch(s, ss, es) && i < |ss|
    ensures Inv(ss[i]) && ss[i].closed && Rank(ss[i]) + i <= Rank(s)
  {
    if i > 0 {
      StretchWindsDown(s, ss, es, i - 1);
      assert Next(ss[i - 1], es[i - 1], ss[i]);
      ClosingOnlyWindsDown(ss[i - 1], es[i - 1], ss[i]);
    }
  }

  /**
   After `Close` only so many steps can follow, whatever the listeners and callers do; and when no
   forced step is left, the worker has stopped, the watchers are gone, and every listener that was
   ever opened, even by a dial that came back late, is closed.
   */
  lemma CloseReleasesEverything(s: State, ss: seq<State>, es: seq<Step>)
    requires Inv(s) && s.closed && Stretch(s, ss, es)
    ensures |es| <= Rank(s)
    ensures var last := ss[|es|];
      (forall e, s' :: Forced(last, e) ==> !Next(last, e, s')) ==>
        last.worker.Stopped? && last.watchers == {} && last.open == {}
  {
    StretchWindsDown(s, ss, es, |es|);
    var last := ss[|es|];
    if !(last.worker.Stopped? && last.watchers == {}) {
      var e, s' := ClosingCanAlwaysGoOn(last);
    }
  }

  /** Callers of a closed listener still get one connection at most. */
  lemma {:induction false} AtMostOneLateHandOver(s: State, ss: seq<State>, es: seq<Step>, i: nat)
    requires s.closed && Stretch(s, ss, es) && i < |ss|
    ensures ss[i].closed && |ss[i].delivered| + LateHandOvers(ss[i]) <= |s.delivered| + LateHandOvers(s)
    ensures |ss[i].delivered| <= |s.delivered| + 1
  {
    if i > 0 {
      AtMostOneLateHandOver(s, ss, es, i - 1);
      assert Next(ss[i - 1], es[i - 1], ss[i]);
      LateHandOversRunOut(ss[i - 1], es[i - 1], ss[i]);
    }
  }

  /** And one they can get: a connection accepted before `Close` and handed over after it. */
  lemma OneLateHandOverHappens() returns (ss: seq<State>, es: seq<Step>)
    ensures Run(0, ss, es) && |es| > 1 && es[|es| - 2] == Close && es[|es| - 1] == HandOver
  {
    var s0 := State(Dialed(0), {0}, {0}, {}, {}, false, [], []);
    var s1 := s0.(worker := Checking(0), watchers := {0});
    var s2 := s1.(worker := Accepting(0));
    var s3 := s2.(worker := Offering(0, 7), accepted := [7]);
    var s4 := s3.(closed := true);
    var s5 := s4.(worker := Checking(0), delivered := [7]);
    ss, es := [s0, s1, s2, s3, s4, s5], [Serve, Check, Accept(7), Close, HandOver];
    assert s0.watchers + {0} == {0} && s2.accepted + [7] == [7] && s4.delivered + [7] == [7];
  }
}

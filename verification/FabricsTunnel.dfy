/**
 doorway/listener.go: the merged listener over a local one and a redialing one, run together.

 What the merged listener accepts from fabrics is what the redialing listener hands over, and both
 are closed in one step; everything else interleaves freely.
*/
module FabricsTunnels {
  import opened Basics
  import T = Tunnel
  import R = Reconnect

  datatype State = State(merged: T.State, fabrics: R.State)

  datatype Step =
    | Merging(e: T.Step)               // a step of the merged listener alone
    | Redialing(d: R.Step)             // a step of the redialing listener alone
    | Yield(conn: nat)                 // a connection passes from the one to the other
    | EndOfFile                        // the redialing listener tells that it is closed
    | CloseFabrics

  ghost predicate Init(s: State, first: nat) {
    T.Init(s.merged) && s.merged.tunnel.late == 1 && R.Init(s.fabrics, first)
  }

  /** The steps in which the merged listener has to do with its fabrics source. */
  predicate WithFabrics(e: T.Step) {
    e == T.AcceptFails(T.Fabrics) || e == T.CloseTunnel || (e.Accept? && e.src == T.Fabrics)
  }

  /** The worker takes a connection in, whether or not its listener has been closed. */
  function TakesIn(side: T.Side, id: nat): T.Side {
    T.Side(T.Offering(T.TagConn(id, T.TAG_FABRICS)), side.accepted + [id], side.listenerClosed,
           if side.listenerClosed && side.late > 0 then side.late - 1 else side.late)
  }

  ghost predicate Next(s: State, step: Step, s': State) {
    match step
    case Merging(e) => !WithFabrics(e) && T.Next(s.merged, e, s'.merged) && s'.fabrics == s.fabrics
    case Redialing(d) => !d.HandOver? && !d.Close? && R.Next(s.fabrics, d, s'.fabrics) && s'.merged == s.merged
    case Yield(conn) =>
      && s.fabrics.worker.Offering? && s.fabrics.worker.conn == conn && s.merged.tunnel.worker.Accepting?
      && R.Next(s.fabrics, R.HandOver, s'.fabrics)
      && s'.merged == s.merged.(tunnel := TakesIn(s.merged.tunnel, conn))
    case EndOfFile =>
      s.fabrics.closed && T.Next(s.merged, T.AcceptFails(T.Fabrics), s'.merged) && s'.fabrics == s.fabrics
    case CloseFabrics =>
      T.Next(s.merged, T.CloseTunnel, s'.merged) && R.Next(s.fabrics, R.Close, s'.fabrics)
  }

  ghost predicate Inv(s: State) {
    && T.Inv(s.merged) && R.Inv(s.fabrics)
    && (s.fabrics.closed <==> s.merged.tunnel.listenerClosed)
    && s.merged.tunnel.accepted == s.fabrics.delivered
    && R.LateHandOvers(s.fabrics) <= s.merged.tunnel.late <= 1
    && (!s.fabrics.closed ==> s.merged.tunnel.late == 1)
    && (!s.fabrics.closed ==> s.merged.tunnel.worker.Accepting? || s.merged.tunnel.worker.Offering?)
  }

  /** The redialing listener never exceeds what the merged one grants a closed source. */
  lemma YieldIsAnAccept(s: State, conn: nat, s': State)
    requires Inv(s) && Next(s, Yield(conn), s')
    ensures T.Next(s.merged, T.Accept(T.Fabrics, conn), s'.merged)
  {
    var r := s.fabrics;
    assert r.accepted == r.delivered + [conn];
    forall i | 0 <= i < |r.delivered| ensures r.delivered[i] != conn {
      assert r.accepted[i] == r.delivered[i] && r.accepted[|r.delivered|] == conn;
    }
  }

  lemma {:induction false} InvStep(s: State, step: Step, s': State)
    requires Inv(s) && Next(s, step, s')
    ensures Inv(s')
  {
    match step {
      case Merging(e) =>
        T.InvStep(s.merged, e, s'.merged);
      case Redialing(d) =>
        R.InvStep(s.fabrics, d, s'.fabrics);
        if s.fabrics.closed {
          R.LateHandOversRunOut(s.fabrics, d, s'.fabrics);
        }
      case Yield(conn) =>
        YieldIsAnAccept(s, conn, s');
        T.InvStep(s.merged, T.Accept(T.Fabrics, conn), s'.merged);
        R.InvStep(s.fabrics, R.HandOver, s'.fabrics);
      case EndOfFile =>
        T.InvStep(s.merged, T.AcceptFails(T.Fabrics), s'.merged);
      case CloseFabrics =>
        T.InvStep(s.merged, T.CloseTunnel, s'.merged);
        R.InvStep(s.fabrics, R.Close, s'.fabrics);
    }
  }

  ghost predicate Stretch(s: State, ss: seq<State>, steps: seq<Step>) {
    && |ss| == |steps| + 1 && ss[0] == s
    && forall i, j :: 0 <= i < |steps| && j == i + 1 ==> Next(ss[i], steps[i], ss[j])
  }

  lemma {:induction false} RunInv(first: nat, ss: seq<State>, steps: seq<Step>, i: nat)
    requires |ss| > 0 && Init(ss[0], first) && Stretch(ss[0], ss, steps) && i < |ss|
    ensures Inv(ss[i])
    decreases i
  {
    if i == 0 {
      T.InitInv(ss[0].merged);
    } else {
      RunInv(first, ss, steps, i - 1);
      assert Next(ss[i - 1], steps[i - 1], ss[i]);
      InvStep(ss[i - 1], steps[i - 1], ss[i]);
    }
  }

  /**
   From the redialed listeners to the callers of the merged one: over any number of redials, and
   closing included, the connections delivered with the fabrics tag are those accepted, in order and
   without repeats; two at most are missing, one held by each of the two listeners.
   */
  lemma FabricsArriveFaithfully(first: nat, ss: seq<State>, steps: seq<Step>, i: nat)
    requires |ss| > 0 && Init(ss[0], first) && Stretch(ss[0], ss, steps) && i < |ss|
    ensures var accepted, delivered := ss[i].fabrics.accepted, T.Delivered(ss[i].merged.out, T.TAG_FABRICS);
      && delivered <= accepted && NoRepeats(delivered) && |accepted| <= |delivered| + 2
  {
    RunInv(first, ss, steps, i);
    var s := ss[i];
    assert T.Faithful(s.merged, T.Fabrics);
    assert T.Delivered(s.merged.out, T.TAG_FABRICS) <= s.merged.tunnel.accepted;
    assert s.fabrics.delivered <= s.fabrics.accepted;
  }

  // ---- A connection gets all the way ------------------------------------------------------------------

  /** How far the redialing worker is from accepting. */
  function Distance(w: R.Worker): nat {
    match w
    case Accepting(_) => 1
    case Checking(_) => 2
    case Dialed(_) => 3
    case Dialing => 4
    case LoopTop => 5
    case Sleeping => 6
    case ClosingListener(_) => 7
    case Leaving(_) => 8
    case Offering(_, _) => 9
    case Stopped => 10
  }

  /** How many steps at most are left to bring `conn` to a caller. */
  function Left(s: State, conn: nat): nat {
    var held := if s.merged.tunnel.worker.Offering? then 1 else 0;
    if conn in s.merged.tunnel.accepted then held
    else if conn in s.fabrics.accepted then 2 + held
    else 2 * Distance(s.fabrics.worker) + 3 + held
  }

  /** The connection is still to come, or on its way: with the redialing worker, or with the merged one. */
  ghost predicate OnItsWay(s: State, conn: nat) {
    && (conn in s.merged.tunnel.accepted ==>
          s.merged.tunnel.worker.Offering? && s.merged.tunnel.worker.conn.id == conn)
    && (conn in s.fabrics.accepted && conn !in s.merged.tunnel.accepted ==>
          s.fabrics.worker.Offering? && s.fabrics.worker.conn == conn)
  }

  /** The redialing worker's next step towards a connection; `lis` is the listener it gets if it must dial. */
  lemma {:induction false} NextRedialing(r: R.State, lis: nat, conn: nat) returns (d: R.Step, r': R.State)
    requires R.Inv(r) && !r.closed && !r.worker.Offering? && conn !in r.accepted
    requires r.worker.Dialing? ==> lis !in r.dialed
    ensures R.Next(r, d, r') && !d.HandOver? && !d.Close? && r'.delivered == r.delivered && !r'.closed
    ensures r.worker.Accepting? ==> r'.worker.Offering? && r'.worker.conn == conn && r'.accepted == r.accepted + [conn]
    ensures !r.worker.Accepting? ==> r'.accepted == r.accepted && Distance(r'.worker) < Distance(r.worker)
    ensures r'.dialed == r.dialed || r'.worker.Dialed?
    ensures !r.worker.Dialing? && R.Lost(r'.worker) ==> R.Lost(r.worker)
  {
    match r.worker {
      case Leaving(l) => d, r' := R.TellWatcher, r.(worker := R.ClosingListener(l), done := r.done + {l});
      case ClosingListener(l) => d, r' := R.CloseListener, r.(worker := R.Sleeping, open := r.open - {l});
      case Sleeping => d, r' := R.Wake, r.(worker := R.LoopTop);
      case LoopTop => d, r' := R.Loop, r.(worker := R.Dialing);
      case Dialing =>
        d, r' := R.DialSucceeds(lis), r.(worker := R.Dialed(lis), dialed := r.dialed + {lis}, open := r.open + {lis});
      case Dialed(l) => d, r' := R.Serve, r.(worker := R.Checking(l), watchers := r.watchers + {l});
      case Checking(l) => d, r' := R.Check, r.(worker := R.Accepting(l));
      case Accepting(l) => d, r' := R.Accept(conn), r.(worker := R.Offering(l, conn), accepted := r.accepted + [conn]);
    }
  }

  lemma StretchCons(s: State, step: Step, ss: seq<State>, steps: seq<Step>)
    requires |ss| > 0 && Next(s, step, ss[0]) && Stretch(ss[0], ss, steps)
    ensures Stretch(s, [s] + ss, [step] + steps)
  {
    forall i, j | 0 <= i < |steps| + 1 && j == i + 1
      ensures Next(([s] + ss)[i], ([step] + steps)[i], ([s] + ss)[j])
    {
      if i > 0 {
        assert Next(ss[i - 1], steps[i - 1], ss[j - 1]);
      }
    }
  }

  /** The merged listener hands over what it holds from fabrics. */
  lemma {:induction false} HandsOver(s: State, conn: nat) returns (s': State)
    requires Inv(s) && !s.fabrics.closed && OnItsWay(s, conn) && s.merged.tunnel.worker.Offering?
    ensures Next(s, Merging(T.HandOver(T.Fabrics)), s') && Inv(s')
    ensures s'.fabrics == s.fabrics && s'.merged.closer == s.merged.closer && s'.merged.tunnel.worker.Accepting?
    ensures T.Delivered(s'.merged.out, T.TAG_FABRICS) == s'.merged.tunnel.accepted == s.merged.tunnel.accepted
  {
    assert T.Faithful(s.merged, T.Fabrics);
    var e, m := T.PendingConnectionIsDelivered(s.merged, T.Fabrics);
    s' := s.(merged := m);
    InvStep(s, Merging(e), s');
  }

  /** The redialing listener yields what it holds to the merged one. */
  lemma {:induction false} Yields(s: State, conn: nat) returns (c: nat, s': State)
    requires Inv(s) && !s.fabrics.closed && OnItsWay(s, conn)
    requires s.merged.tunnel.worker.Accepting? && s.fabrics.worker.Offering?
    ensures Next(s, Yield(c), s') && Inv(s') && OnItsWay(s', conn) && Left(s', conn) < Left(s, conn)
    ensures !s'.fabrics.closed && s'.merged.closer == s.merged.closer && s'.fabrics.worker.Checking?
  {
    var r := s.fabrics;
    c := r.worker.conn;
    s' := State(s.merged.(tunnel := TakesIn(s.merged.tunnel, c)),
                r.(worker := R.Checking(r.worker.lis), delivered := r.delivered + [c]));
    InvStep(s, Yield(c), s');
  }

  /** A step of the redialing listener towards the connection. */
  lemma {:induction false} Redials(s: State, lis: nat, conn: nat) returns (step: Step, s': State)
    requires Inv(s) && !s.fabrics.closed && OnItsWay(s, conn)
    requires s.merged.tunnel.worker.Accepting? && !s.fabrics.worker.Offering?
    requires R.Lost(s.fabrics.worker) ==> lis !in s.fabrics.dialed
    ensures Next(s, step, s') && Inv(s') && OnItsWay(s', conn) && Left(s', conn) < Left(s, conn)
    ensures R.Lost(s'.fabrics.worker) ==> lis !in s'.fabrics.dialed
    ensures !s'.fabrics.closed && s'.merged == s.merged
  {
    var d, r' := NextRedialing(s.fabrics, lis, conn);
    step, s' := Redialing(d), s.(fabrics := r');
    InvStep(s, step, s');
  }

  lemma {:induction false} GetsToACaller(s: State, lis: nat, conn: nat) returns (ss: seq<State>, steps: seq<Step>)
    requires Inv(s) && !s.fabrics.closed && OnItsWay(s, conn)
    requires R.Lost(s.fabrics.worker) ==> lis !in s.fabrics.dialed
    ensures Stretch(s, ss, steps) && |steps| <= Left(s, conn)
    ensures ss[|steps|].merged.closer == s.merged.closer && !ss[|steps|].fabrics.closed
    ensures conn in T.Delivered(ss[|steps|].merged.out, T.TAG_FABRICS)
    decreases Left(s, conn)
  {
    var step, s' := EndOfFile, s;
    if s.merged.tunnel.worker.Offering? {
      step := Merging(T.HandOver(T.Fabrics));
      s' := HandsOver(s, conn);
      if conn in s.merged.tunnel.accepted {
        return [s, s'], [step];
      }
    } else if s.fabrics.worker.Offering? {
      var c;
      c, s' := Yields(s, conn);
      step := Yield(c);
    } else {
      step, s' := Redials(s, lis, conn);
    }
    var ss', steps' := GetsToACaller(s', lis, conn);
    StretchCons(s, step, ss', steps');
    ss, steps := [s] + ss', [step] + steps';
  }

  /**
   While nobody closes it, the drive can be reached through fabrics: from every reachable state, and
   however the redialing listener stands, a fresh connection, over a fresh listener if need be, gets
   to a caller of the merged one in a bounded number of steps.
   */
  lemma FreshConnectionGetsThrough(first: nat, ss0: seq<State>, steps0: seq<Step>, i: nat, lis: nat, conn: nat)
    returns (ss: seq<State>, steps: seq<Step>)
    requires |ss0| > 0 && Init(ss0[0], first) && Stretch(ss0[0], ss0, steps0) && i < |ss0|
    requires !ss0[i].fabrics.closed && lis !in ss0[i].fabrics.dialed && conn !in ss0[i].fabrics.accepted
    ensures Stretch(ss0[i], ss, steps) && |steps| <= 24
    ensures !ss[|steps|].fabrics.closed && ss[|steps|].merged.closer == ss0[i].merged.closer
    ensures conn in T.Delivered(ss[|steps|].merged.out, T.TAG_FABRICS)
  {
    RunInv(first, ss0, steps0, i);
    var s := ss0[i];
    forall c | c in s.merged.tunnel.accepted ensures c in s.fabrics.accepted {
      assert s.fabrics.delivered <= s.fabrics.accepted;
    }
    ss, steps := GetsToACaller(s, lis, conn);
  }

  // ---- Closing both -----------------------------------------------------------------------------------

  function Rank(s: State): nat {
    T.Rank(s.merged) + R.Rank(s.fabrics)
  }

  predicate IsAnswer(step: Step) {
    step == Merging(T.AnswerClosed)
  }

  /** Steps that wait for no caller and for nobody outside. */
  ghost predicate Unaided(s: State, step: Step) {
    match step
    case Merging(e) => T.OnItsOwn(e)
    case Redialing(d) => R.Forced(s.fabrics, d)
    case Yield(_) => false
    case EndOfFile => true
    case CloseFabrics => true
  }

  lemma {:induction false} ClosingOnlyWindsDown(s: State, step: Step, s': State)
    requires Inv(s) && T.ListenersClosed(s.merged) && Next(s, step, s')
    ensures Inv(s') && T.ListenersClosed(s'.merged)
    ensures if IsAnswer(step) then Rank(s') == Rank(s) else Rank(s') < Rank(s)
  {
    InvStep(s, step, s');
    match step {
      case Merging(e) => T.ClosingOnlyWindsDown(s.merged, e, s'.merged);
      case Redialing(d) => R.ClosingOnlyWindsDown(s.fabrics, d, s'.fabrics);
      case Yield(conn) =>
        YieldIsAnAccept(s, conn, s');
        T.ClosingOnlyWindsDown(s.merged, T.Accept(T.Fabrics, conn), s'.merged);
        R.ClosingOnlyWindsDown(s.fabrics, R.HandOver, s'.fabrics);
      case EndOfFile => T.ClosingOnlyWindsDown(s.merged, T.AcceptFails(T.Fabrics), s'.merged);
      case CloseFabrics => T.ClosingOnlyWindsDown(s.merged, T.CloseTunnel, s'.merged);
    }
  }

  /** `Close` has returned, and nothing is left of either listener. */
  ghost predicate AllReleased(s: State) {
    && s.merged.closer.Returned? && s.merged.tcp.worker.Gone? && s.merged.tunnel.worker.Gone?
    && s.fabrics.worker.Stopped? && s.fabrics.watchers == {} && s.fabrics.open == {}
  }

  /** From `Close` on, until all is released, there is a step that waits for nobody. */
  lemma {:induction false} ClosingCanAlwaysGoOn(s: State) returns (step: Step, s': State)
    requires Inv(s) && !s.merged.closer.NotClosing? && !AllReleased(s)
    ensures Unaided(s, step) && Next(s, step, s')
  {
    if !s.merged.closer.Returned? {
      var e, m := T.ClosingCanAlwaysGoOn(s.merged);
      s' := s.(merged := m);
      if e == T.AcceptFails(T.Fabrics) {
        step := EndOfFile;
      } else if e == T.CloseTunnel {
        step, s' := CloseFabrics, State(m, s.fabrics.(closed := true));
      } else {
        step := Merging(e);
      }
    } else {
      var d, f := R.ClosingCanAlwaysGoOn(s.fabrics);
      step, s' := Redialing(d), s.(fabrics := f);
    }
  }

  lemma {:induction false} StretchWindsDown(s: State, ss: seq<State>, steps: seq<Step>, i: nat)
    requires Inv(s) && T.ListenersClosed(s.merged) && Stretch(s, ss, steps) && i < |ss|
    requires forall k :: 0 <= k < |steps| ==> !IsAnswer(steps[k])
    ensures Inv(ss[i]) && T.ListenersClosed(ss[i].merged) && Rank(ss[i]) + i <= Rank(s)
  {
    if i > 0 {
      StretchWindsDown(s, ss, steps, i - 1);
      assert Next(ss[i - 1], steps[i - 1], ss[i]);
      ClosingOnlyWindsDown(ss[i - 1], steps[i - 1], ss[i]);
    }
  }

  /**
   Closing the merged listener brings everything down: once both sources are closed only boundedly
   many steps follow, in any interleaving of workers, watchers, dials, callers and the closer; and
   where nothing can go on by itself, `Close` has returned, all workers are gone, and every listener
   that was ever dialed is closed.
   */
  lemma CloseBringsEverythingDown(s: State, ss: seq<State>, steps: seq<Step>)
    requires Inv(s) && T.ListenersClosed(s.merged) && Stretch(s, ss, steps)
    requires forall k :: 0 <= k < |steps| ==> !IsAnswer(steps[k])
    ensures |steps| <= Rank(s) <= 10 + 2 * s.merged.tcp.late + R.Rank(s.fabrics)
    ensures var last := ss[|steps|];
      (forall step, s' :: Unaided(last, step) ==> !Next(last, step, s')) ==> AllReleased(last)
  {
    StretchWindsDown(s, ss, steps, |steps|);
    var last := ss[|steps|];
    if !AllReleased(last) {
      var step, s' := ClosingCanAlwaysGoOn(last);
    }
  }
}

/**
 doorway/tunnel_listener.go: two listeners merged into one, as a transition system.

 Each source has a worker that loops over accept and hand-off; the channels are unbuffered, so a
 hand-off is one joint step of a worker and a caller of `acceptTag`.  Any interleaving is a run.
*/
module Tunnel {
  import opened Basics

  const TAG_TCP := "TCP"
  const TAG_FABRICS := "fabrics"

  datatype Source = Tcp | Fabrics

  function Tag(src: Source): string {
    match src
    case Tcp => TAG_TCP
    case Fabrics => TAG_FABRICS
  }

  /** A connection, told apart by its id, with the tag of the listener it came through. */
  datatype TagConn = TagConn(id: nat, tag: string)

  datatype Worker = Accepting | Offering(conn: TagConn) | Reporting | Gone

  /** `late` bounds how many connections the listener may still yield once it is closed. */
  datatype Side = Side(worker: Worker, accepted: seq<nat>, listenerClosed: bool, late: nat)

  /** The one caller of `Close` that wins the once; it closes both listeners, the channel, and waits. */
  datatype Closer = NotClosing | ClosingTcp | ClosingTunnel | ClosingChannel | Waiting | Returned

  /** What a call of `acceptTag` returned. */
  datatype Delivery = Handed(conn: TagConn) | ListenerError(src: Source) | ConnectionClosed

  datatype State = State(tcp: Side, tunnel: Side, closer: Closer, out: seq<Delivery>)

  function SideOf(s: State, src: Source): Side {
    match src
    case Tcp => s.tcp
    case Fabrics => s.tunnel
  }

  function WithSide(s: State, src: Source, side: Side): State {
    match src
    case Tcp => s.(tcp := side)
    case Fabrics => s.(tunnel := side)
  }

  predicate ChannelClosed(s: State) {
    s.closer.Waiting? || s.closer.Returned?
  }

  ghost predicate Init(s: State) {
    s == State(Side(Accepting, [], false, s.tcp.late), Side(Accepting, [], false, s.tunnel.late), NotClosing, [])
  }

  datatype Step =
    | Accept(src: Source, id: nat)     // the listener yields a connection
    | AcceptFails(src: Source)         // or an error, as a closed one does in the end
    | HandOver(src: Source)            // a caller receives the connection
    | Report(src: Source)              // a caller receives the error
    | SeeClosed(src: Source)           // the worker finds the channel closed instead
    | AnswerClosed                     // a caller finds the channel closed
    | BeginClose | CloseTcp | CloseTunnel | CloseChannel | FinishWait

  function WithWorker(s: State, src: Source, w: Worker): State {
    WithSide(s, src, SideOf(s, src).(worker := w))
  }

  function WithListenerClosed(s: State, src: Source): State {
    WithSide(s, src, SideOf(s, src).(listenerClosed := true))
  }

  /** The listener yields a connection; a closed one uses up what it may still yield. */
  function Yielded(side: Side, conn: TagConn): Side
    requires side.listenerClosed ==> side.late > 0
  {
    Side(Offering(conn), side.accepted + [conn.id], side.listenerClosed,
         if side.listenerClosed then side.late - 1 else side.late)
  }

  ghost predicate Next(s: State, e: Step, s': State) {
    match e
    case Accept(src, id) =>
      && SideOf(s, src).worker.Accepting? && id !in SideOf(s, src).accepted
      && (SideOf(s, src).listenerClosed ==> SideOf(s, src).late > 0)
      && s' == WithSide(s, src, Yielded(SideOf(s, src), TagConn(id, Tag(src))))
    case AcceptFails(src) => SideOf(s, src).worker.Accepting? && s' == WithWorker(s, src, Reporting)
    case HandOver(src) =>
      && SideOf(s, src).worker.Offering?
      && s' == WithWorker(s, src, Accepting).(out := s.out + [Handed(SideOf(s, src).worker.conn)])
    case Report(src) =>
      SideOf(s, src).worker.Reporting? && s' == WithWorker(s, src, Gone).(out := s.out + [ListenerError(src)])
    case SeeClosed(src) =>
      && ChannelClosed(s) && (SideOf(s, src).worker.Offering? || SideOf(s, src).worker.Reporting?)
      && s' == WithWorker(s, src, Gone)
    case AnswerClosed => ChannelClosed(s) && s' == s.(out := s.out + [ConnectionClosed])
    case BeginClose => s.closer.NotClosing? && s' == s.(closer := ClosingTcp)
    case CloseTcp => s.closer.ClosingTcp? && s' == WithListenerClosed(s, Tcp).(closer := ClosingTunnel)
    case CloseTunnel => s.closer.ClosingTunnel? && s' == WithListenerClosed(s, Fabrics).(closer := ClosingChannel)
    case CloseChannel => s.closer.ClosingChannel? && s' == s.(closer := Waiting)
    case FinishWait =>
      && s.closer.Waiting? && s.tcp.worker.Gone? && s.tunnel.worker.Gone?
      && s' == s.(closer := Returned)
  }

  // ---- Faithful merging ------------------------------------------------------------------------

  /** The ids delivered with a given tag, in order. */
  function Delivered(out: seq<Delivery>, tag: string): seq<nat> {
    if out == [] then []
    else
      var d := out[|out| - 1];
      Delivered(out[..|out| - 1], tag) + if d.Handed? && d.conn.tag == tag then [d.conn.id] else []
  }

  lemma DeliveredSnoc(out: seq<Delivery>, d: Delivery, tag: string)
    ensures Delivered(out + [d], tag) ==
            Delivered(out, tag) + if d.Handed? && d.conn.tag == tag then [d.conn.id] else []
  {
  }

  ghost predicate FromSource(d: Delivery, src: Source) {
    match d
    case Handed(c) => c.tag == Tag(src)
    case ListenerError(e) => e == src
    case ConnectionClosed => false
  }

  /** What a side has accepted is what was delivered from it, and at most one connection more. */
  ghost predicate Faithful(s: State, src: Source) {
    && NoRepeats(SideOf(s, src).accepted)
    && Accounted(SideOf(s, src), Delivered(s.out, Tag(src)), Tag(src), ChannelClosed(s))
  }

  ghost predicate Accounted(side: Side, delivered: seq<nat>, tag: string, closed: bool) {
    match side.worker
    case Offering(c) => c.tag == tag && side.accepted == delivered + [c.id]
    case Gone => side.accepted == delivered ||
                 (closed && |side.accepted| > 0 && side.accepted[..|side.accepted| - 1] == delivered)
    case _ => side.accepted == delivered
  }

  /** A source reports at most one error, and delivers nothing after it. */
  ghost predicate QuietAfterError(s: State, src: Source) {
    && (ListenerError(src) in s.out ==> SideOf(s, src).worker.Gone?)
    && forall i, j :: 0 <= i < j < |s.out| && s.out[i] == ListenerError(src) ==> !FromSource(s.out[j], src)
  }

  ghost predicate Tagged(out: seq<Delivery>) {
    forall d :: d in out && d.Handed? ==> d.conn.tag == TAG_TCP || d.conn.tag == TAG_FABRICS
  }

  ghost predicate Inv(s: State) {
    && (forall src: Source :: Faithful(s, src) && QuietAfterError(s, src))
    && Tagged(s.out)
    && (s.tcp.listenerClosed <==> !(s.closer.NotClosing? || s.closer.ClosingTcp?))
    && (s.tunnel.listenerClosed <==> s.closer.ClosingChannel? || ChannelClosed(s))
    && (s.closer.Returned? ==> s.tcp.worker.Gone? && s.tunnel.worker.Gone?)
    && (ConnectionClosed in s.out ==> ChannelClosed(s))
  }

  lemma InitInv(s: State)
    requires Init(s)
    ensures Inv(s)
  {
  }

  lemma OutStep(s: State, e: Step, s': State, src: Source)
    requires Faithful(s, Tcp) && Faithful(s, Fabrics) && Next(s, e, s')
    ensures Delivered(s'.out, Tag(src)) ==
            Delivered(s.out, Tag(src)) + if e == HandOver(src) then [SideOf(s, src).worker.conn.id] else []
  {
    assert |TAG_TCP| != |TAG_FABRICS|;
    match e {
      case HandOver(from) => DeliveredSnoc(s.out, Handed(SideOf(s, from).worker.conn), Tag(src));
      case Report(from) => DeliveredSnoc(s.out, ListenerError(from), Tag(src));
      case AnswerClosed => DeliveredSnoc(s.out, ConnectionClosed, Tag(src));
      case _ =>
    }
  }

  /** How one side changes in a step, and what is delivered from it. */
  ghost predicate SideMove(side: Side, out: seq<nat>, e: Step, side': Side, out': seq<nat>,
                           src: Source, closed': bool)
  {
    if e.Accept? && e.src == src then
      && side.worker == Accepting && e.id !in side.accepted && out' == out
      && side'.worker == Offering(TagConn(e.id, Tag(src))) && side'.accepted == side.accepted + [e.id]
    else
      && side'.accepted == side.accepted
      && (e == HandOver(src) ==>
            side.worker.Offering? && side'.worker == Accepting && out' == out + [side.worker.conn.id])
      && (e != HandOver(src) ==> out' == out)
      && (e == AcceptFails(src) ==> side.worker == Accepting && side'.worker == Reporting)
      && (e == Report(src) ==> side.worker == Reporting && side'.worker == Gone)
      && (e == SeeClosed(src) ==> closed' && (side.worker.Offering? || side.worker.Reporting?) && side'.worker == Gone)
      && (e == HandOver(src) || e == AcceptFails(src) || e == Report(src) || e == SeeClosed(src) ||
          side'.worker == side.worker)
  }

  lemma SideStaysFaithful(side: Side, out: seq<nat>, e: Step, side': Side, out': seq<nat>,
                          src: Source, closed: bool, closed': bool)
    requires NoRepeats(side.accepted) && Accounted(side, out, Tag(src), closed) && (closed ==> closed')
    requires SideMove(side, out, e, side', out', src, closed')
    ensures NoRepeats(side'.accepted) && Accounted(side', out', Tag(src), closed')
  {
    if e.Accept? && e.src == src {
      NoRepeatsSnoc(side.accepted, e.id);
    } else if e == SeeClosed(src) && side.worker.Offering? {
      assert side.accepted[..|side.accepted| - 1] == out;
    }
  }

  lemma {:induction false} SideMoves(s: State, e: Step, s': State, src: Source)
    requires Faithful(s, Tcp) && Faithful(s, Fabrics) && Next(s, e, s')
    requires Delivered(s'.out, Tag(src)) ==
             Delivered(s.out, Tag(src)) + if e == HandOver(src) then [SideOf(s, src).worker.conn.id] else []
    ensures SideMove(SideOf(s, src), Delivered(s.out, Tag(src)), e, SideOf(s', src), Delivered(s'.out, Tag(src)), src,
                     ChannelClosed(s'))
  {
    match e {
      case Accept(from, _) => assert from != src ==> SideOf(s', src) == SideOf(s, src);
      case AcceptFails(from) => assert from != src ==> SideOf(s', src) == SideOf(s, src);
      case HandOver(from) => assert from != src ==> SideOf(s', src) == SideOf(s, src);
      case Report(from) => assert from != src ==> SideOf(s', src) == SideOf(s, src);
      case SeeClosed(from) => assert from != src ==> SideOf(s', src) == SideOf(s, src);
      case _ =>
    }
  }

  lemma FaithfulFromMove(s: State, e: Step, s': State, src: Source)
    requires Faithful(s, src) && (ChannelClosed(s) ==> ChannelClosed(s'))
    requires SideMove(SideOf(s, src), Delivered(s.out, Tag(src)), e, SideOf(s', src), Delivered(s'.out, Tag(src)), src,
                      ChannelClosed(s'))
    ensures Faithful(s', src)
  {
    SideStaysFaithful(SideOf(s, src), Delivered(s.out, Tag(src)), e, SideOf(s', src), Delivered(s'.out, Tag(src)), src,
                      ChannelClosed(s), ChannelClosed(s'));
  }

  lemma {:induction false} FaithfulStep(s: State, e: Step, s': State, src: Source)
    requires Faithful(s, Tcp) && Faithful(s, Fabrics) && Next(s, e, s')
    ensures Faithful(s', src)
  {
    OutStep(s, e, s', src);
    SideMoves(s, e, s', src);
    FaithfulFromMove(s, e, s', src);
  }

  /** At most one answer is given, from a source whose worker is there, and an error is its last. */
  ghost predicate Answers(s: State, s': State, src: Source) {
    && (SideOf(s, src).worker.Gone? ==> SideOf(s', src).worker.Gone?)
    && (|| s'.out == s.out
        || (&& |s'.out| == |s.out| + 1 && s'.out[..|s.out|] == s.out
            && (FromSource(s'.out[|s.out|], src) ==> !SideOf(s, src).worker.Gone?)
            && (s'.out[|s.out|] == ListenerError(src) ==> SideOf(s', src).worker.Gone?)))
  }

  lemma {:induction false} AnswersOneAtATime(s: State, e: Step, s': State, src: Source)
    requires Faithful(s, Tcp) && Faithful(s, Fabrics) && Next(s, e, s')
    ensures Answers(s, s', src)
  {
    assert |TAG_TCP| != |TAG_FABRICS|;
  }

  lemma QuietFromAnswers(s: State, s': State, src: Source)
    requires QuietAfterError(s, src) && Answers(s, s', src)
    ensures QuietAfterError(s', src)
  {
    forall i, j | 0 <= i < j < |s'.out| && s'.out[i] == ListenerError(src) ensures !FromSource(s'.out[j], src) {
      assert s.out[i] == s'.out[i];
      assert ListenerError(src) in s.out;
    }
  }

  lemma {:induction false} QuietStep(s: State, e: Step, s': State, src: Source)
    requires Inv(s) && Next(s, e, s')
    ensures QuietAfterError(s', src)
  {
    assert Faithful(s, Tcp) && Faithful(s, Fabrics) && QuietAfterError(s, src);
    AnswersOneAtATime(s, e, s', src);
    QuietFromAnswers(s, s', src);
  }

  lemma TagsStep(s: State, e: Step, s': State)
    requires Faithful(s, Tcp) && Faithful(s, Fabrics) && Tagged(s.out) && Next(s, e, s')
    ensures Tagged(s'.out)
  {
  }

  lemma InvStep(s: State, e: Step, s': State)
    requires Inv(s) && Next(s, e, s')
    ensures Inv(s')
  {
    forall src: Source ensures Faithful(s', src) && QuietAfterError(s', src) {
      FaithfulStep(s, e, s', src);
      QuietStep(s, e, s', src);
    }
    TagsStep(s, e, s');
  }

  ghost predicate Run(ss: seq<State>, es: seq<Step>) {
    && |ss| == |es| + 1 && Init(ss[0])
    && forall i, j :: 0 <= i < |es| && j == i + 1 ==> Next(ss[i], es[i], ss[j])
  }

  lemma {:induction false} RunInv(ss: seq<State>, es: seq<Step>, i: nat)
    requires Run(ss, es) && i < |ss|
    ensures Inv(ss[i])
    decreases i
  {
    if i == 0 {
      InitInv(ss[0]);
    } else {
      RunInv(ss, es, i - 1);
      assert Next(ss[i - 1], es[i - 1], ss[i]);
      InvStep(ss[i - 1], es[i - 1], ss[i]);
    }
  }

  /**
   In every interleaving: what was delivered with a source's tag is, in order and without repeats,
   what that source accepted, but for at most one connection; and every delivery carries a tag.
   */
  lemma MergeIsFaithful(ss: seq<State>, es: seq<Step>, i: nat, src: Source)
    requires Run(ss, es) && i < |ss|
    ensures var accepted, delivered := SideOf(ss[i], src).accepted, Delivered(ss[i].out, Tag(src));
      && delivered <= accepted && |accepted| <= |delivered| + 1
      && NoRepeats(delivered)
      && (!ChannelClosed(ss[i]) && !SideOf(ss[i], src).worker.Offering? ==> delivered == accepted)
  {
    RunInv(ss, es, i);
    assert Faithful(ss[i], src);
  }

  lemma ErrorEndsASource(ss: seq<State>, es: seq<Step>, k: nat, src: Source, i: nat, j: nat)
    requires Run(ss, es) && k < |ss| && i < j < |ss[k].out|
    requires ss[k].out[i] == ListenerError(src)
    ensures !FromSource(ss[k].out[j], src)
  {
    RunInv(ss, es, k);
    assert QuietAfterError(ss[k], src);
  }

  /** A stretch of steps from a state, and whether it ends where nothing but answers can happen. */
  ghost predicate Stretch(s: State, ss: seq<State>, es: seq<Step>) {
    && |ss| == |es| + 1 && ss[0] == s
    && forall i, j :: 0 <= i < |es| && j == i + 1 ==> Next(ss[i], es[i], ss[j])
  }

  // ---- Callers are served ----------------------------------------------------------------------

  /**
   What a source has accepted, a caller can get: one step delivers it, with the tag of the source, and
   then nothing that the source accepted is missing.
   */
  lemma {:induction false} PendingConnectionIsDelivered(s: State, src: Source) returns (e: Step, s': State)
    requires Inv(s) && SideOf(s, src).accepted != Delivered(s.out, Tag(src)) && !SideOf(s, src).worker.Gone?
    ensures Next(s, e, s') && s'.closer == s.closer && e == HandOver(src)
    ensures |s'.out| == |s.out| + 1 && s'.out[|s.out|].Handed? && s'.out[|s.out|].conn.tag == Tag(src)
    ensures Delivered(s'.out, Tag(src)) == SideOf(s, src).accepted == SideOf(s', src).accepted
  {
    assert Faithful(s, src) && Faithful(s, Tcp) && Faithful(s, Fabrics);
    e, s' := HandOver(src), WithWorker(s, src, Accepting).(out := s.out + [Handed(SideOf(s, src).worker.conn)]);
    OutStep(s, e, s', src);
  }

  /** And so it is with the error of a listener. */
  lemma {:induction false} PendingErrorIsDelivered(s: State, src: Source) returns (e: Step, s': State)
    requires Inv(s) && SideOf(s, src).worker.Reporting?
    ensures Next(s, e, s') && s'.out == s.out + [ListenerError(src)] && s'.closer == s.closer
  {
    e, s' := Report(src), WithWorker(s, src, Gone).(out := s.out + [ListenerError(src)]);
  }

  /** Once the channel is closed, every caller can be told so. */
  lemma {:induction false} LateCallersAreAnswered(s: State) returns (e: Step, s': State)
    requires Inv(s) && ChannelClosed(s)
    ensures Next(s, e, s') && s' == s.(out := s.out + [ConnectionClosed])
  {
    e, s' := AnswerClosed, s.(out := s.out + [ConnectionClosed]);
  }

  /** A fresh connection is accepted in one step and delivered in the next. */
  lemma {:induction false} AcceptsAndDelivers(s: State, src: Source, id: nat) returns (s1: State, s2: State)
    requires Inv(s) && !SideOf(s, src).listenerClosed && id !in SideOf(s, src).accepted
    requires SideOf(s, src).worker.Accepting?
    ensures Next(s, Accept(src, id), s1) && Next(s1, HandOver(src), s2) && s2.closer == s.closer
    ensures Delivered(s2.out, Tag(src)) == SideOf(s, src).accepted + [id] == SideOf(s2, src).accepted
  {
    s1 := WithSide(s, src, Yielded(SideOf(s, src), TagConn(id, Tag(src))));
    InvStep(s, Accept(src, id), s1);
    assert Faithful(s1, src);
    var e;
    e, s2 := PendingConnectionIsDelivered(s1, src);
  }

  /** While a listener is open and has not failed, any fresh connection of it gets to a caller. */
  lemma {:induction false} FreshConnectionIsDelivered(s: State, src: Source, id: nat)
    returns (ss: seq<State>, es: seq<Step>)
    requires Inv(s) && !SideOf(s, src).listenerClosed && id !in SideOf(s, src).accepted
    requires SideOf(s, src).worker.Accepting? || SideOf(s, src).worker.Offering?
    ensures Stretch(s, ss, es) && ss[|es|].closer == s.closer
    ensures Delivered(ss[|es|].out, Tag(src)) == SideOf(s, src).accepted + [id] == SideOf(ss[|es|], src).accepted
  {
    if SideOf(s, src).worker.Accepting? {
      var s1, s2 := AcceptsAndDelivers(s, src, id);
      ss, es := [s, s1, s2], [Accept(src, id), HandOver(src)];
    } else {
      assert Faithful(s, src);
      var e, s0 := PendingConnectionIsDelivered(s, src);
      InvStep(s, e, s0);
      var s1, s2 := AcceptsAndDelivers(s0, src, id);
      ss, es := [s, s0, s1, s2], [e, Accept(src, id), HandOver(src)];
    }
  }

  /** A listener that is open may also fail, and `Close` may be called once. */
  lemma {:induction false} SourcesMayFailAndCloseMayBegin(s: State, src: Source)
    requires Inv(s)
    ensures SideOf(s, src).worker.Accepting? ==> exists s' :: Next(s, AcceptFails(src), s')
    ensures s.closer.NotClosing? <==> exists s' :: Next(s, BeginClose, s')
  {
    assert SideOf(s, src).worker.Accepting? ==> Next(s, AcceptFails(src), WithWorker(s, src, Reporting));
    assert s.closer.NotClosing? ==> Next(s, BeginClose, s.(closer := ClosingTcp));
  }

  // ---- Closing terminates -------------------------------------------------------------------------

  function WorkerRank(w: Worker): nat {
    match w
    case Offering(_) => 3
    case Accepting => 2
    case Reporting => 1
    case Gone => 0
  }

  function CloserRank(c: Closer): nat {
    match c
    case NotClosing => 5
    case ClosingTcp => 4
    case ClosingTunnel => 3
    case ClosingChannel => 2
    case Waiting => 1
    case Returned => 0
  }

  /** A connection that a closed listener still yields costs its worker two more steps. */
  function Rank(s: State): nat {
    CloserRank(s.closer) + WorkerRank(s.tcp.worker) + WorkerRank(s.tunnel.worker) + 2 * (s.tcp.late + s.tunnel.late)
  }

  /** Both listeners are closed, so their accepts fail from now on, but for the late connections. */
  ghost predicate ListenersClosed(s: State) {
    CloserRank(s.closer) <= 2
  }

  /** Steps the listener takes by itself, with nobody calling `acceptTag`. */
  predicate OnItsOwn(e: Step) {
    e.AcceptFails? || e.SeeClosed? || e.CloseTcp? || e.CloseTunnel? || e.CloseChannel? || e.FinishWait?
  }

  /** Once the listeners are closed, every step but answering a late caller brings the end nearer. */
  lemma ClosingOnlyWindsDown(s: State, e: Step, s': State)
    requires Inv(s) && ListenersClosed(s) && Next(s, e, s')
    ensures Inv(s') && ListenersClosed(s')
    ensures e.AnswerClosed? ==> Rank(s') == Rank(s)
    ensures !e.AnswerClosed? ==> Rank(s') < Rank(s)
  {
    InvStep(s, e, s');
  }

  /** Until `Close` returns there is always a step that needs no caller: closing cannot get stuck. */
  lemma ClosingCanAlwaysGoOn(s: State) returns (e: Step, s': State)
    requires Inv(s) && !s.closer.NotClosing? && !s.closer.Returned?
    ensures OnItsOwn(e) && Next(s, e, s')
    ensures ListenersClosed(s) || CloserRank(s'.closer) < CloserRank(s.closer)
  {
    match s.closer {
      case ClosingTcp => e, s' := CloseTcp, WithListenerClosed(s, Tcp).(closer := ClosingTunnel);
      case ClosingTunnel => e, s' := CloseTunnel, WithListenerClosed(s, Fabrics).(closer := ClosingChannel);
      case ClosingChannel => e, s' := CloseChannel, s.(closer := Waiting);
      case Waiting =>
        var src := if s.tcp.worker.Gone? then Fabrics else Tcp;
        match SideOf(s, src).worker {
          case Accepting => e, s' := AcceptFails(src), WithWorker(s, src, Reporting);
          case Offering(_) => e, s' := SeeClosed(src), WithWorker(s, src, Gone);
          case Reporting => e, s' := SeeClosed(src), WithWorker(s, src, Gone);
          case Gone => e, s' := FinishWait, s.(closer := Returned);
        }
    }
  }

  lemma {:induction false} StretchWindsDown(s: State, ss: seq<State>, es: seq<Step>, i: nat)
    requires Inv(s) && ListenersClosed(s) && Stretch(s, ss, es) && i < |ss|
    requires forall k :: 0 <= k < |es| ==> !es[k].AnswerClosed?
    ensures Inv(ss[i]) && ListenersClosed(ss[i]) && Rank(ss[i]) + i <= Rank(s)
  {
    if i > 0 {
      StretchWindsDown(s, ss, es, i - 1);
      assert Next(ss[i - 1], es[i - 1], ss[i]);
      ClosingOnlyWindsDown(ss[i - 1], es[i - 1], ss[i]);
    }
  }

  /**
   Closing cannot deadlock or go on for ever: however the workers, the closer and any callers
   interleave, at most eight steps follow, and two for every connection that a closed listener still
   yields (answers to late callers aside); and where no step is left, `Close` has returned.
   */
  lemma CloseTerminates(s: State, ss: seq<State>, es: seq<Step>)
    requires Inv(s) && ListenersClosed(s) && Stretch(s, ss, es)
    requires forall k :: 0 <= k < |es| ==> !es[k].AnswerClosed?
    ensures |es| <= Rank(s) <= 8 + 2 * s.tcp.late + 2 * s.tunnel.late
    ensures var last := ss[|es|];
      (forall e, s' :: OnItsOwn(e) ==> !Next(last, e, s')) ==> last.closer.Returned?
  {
    StretchWindsDown(s, ss, es, |es|);
    var last := ss[|es|];
    if !last.closer.Returned? {
      var e, s' := ClosingCanAlwaysGoOn(last);
    }
  }

  /** From any reachable state of a close, the listener gets to the end of it all by itself. */
  lemma {:induction false} CloseCanFinishAlone(s: State) returns (ss: seq<State>, es: seq<Step>)
    requires Inv(s) && !s.closer.NotClosing?
    ensures Stretch(s, ss, es) && ss[|es|].closer.Returned?
    ensures forall k :: 0 <= k < |es| ==> OnItsOwn(es[k])
    decreases CloserRank(s.closer) > 2, CloserRank(s.closer) > 3, Rank(s)
  {
    if s.closer.Returned? {
      ss, es := [s], [];
    } else {
      var e, s' := ClosingCanAlwaysGoOn(s);
      InvStep(s, e, s');
      if ListenersClosed(s) {
        ClosingOnlyWindsDown(s, e, s');
      }
      var ss', es' := CloseCanFinishAlone(s');
      ss, es := [s] + ss', [e] + es';
      forall i, j | 0 <= i < |es| && j == i + 1 ensures Next(ss[i], es[i], ss[j]) {
        if i > 0 {
          assert Next(ss'[i - 1], es'[i - 1], ss'[j - 1]);
        }
      }
    }
  }

  /** After `Close` has returned both workers are gone and every call is answered with an error. */
  lemma OnlyErrorsAfterClose(s: State, e: Step, s': State)
    requires Inv(s) && s.closer.Returned? && Next(s, e, s')
    ensures e == AnswerClosed && s' == s.(out := s.out + [ConnectionClosed])
    ensures s.tcp.worker.Gone? && s.tunnel.worker.Gone?
  {
  }
}

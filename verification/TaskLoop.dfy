/**
 jarvis/task_loop.go, started by jarvis/main.go: the serial task queue, as a transition system.

 Callers of `run` put an entry in a bounded channel and wait for its answer; one worker, which only
 starts once the boot work is over, takes the entries one by one.
*/
module TaskLoops {
  import opened Basics

  const CAPACITY := 10

  datatype Worker = Booting | Idle | Running(id: nat) | Replying(id: nat, result: int)

  /** What happened, in order: the boot work and the tasks. */
  datatype Event = BootEnd | Begin(id: nat) | End(id: nat, result: int)

  datatype State = State(
    sending: set<nat>,          // callers whose entry is not in the queue yet
    queue: seq<nat>,
    entered: seq<nat>,          // every id that ever got into the queue, in order
    waiting: set<nat>,          // callers whose entry was accepted
    answers: map<nat, int>,     // what `run` returned to whom
    worker: Worker,
    log: seq<Event>)

  ghost predicate Init(s: State) {
    s == State({}, [], [], {}, map[], Booting, [])
  }

  datatype Step =
    | Call(id: nat) | Enqueue(id: nat)
    | FinishBoot | Take | Finish(result: int) | Reply

  predicate Known(s: State, id: nat) {
    id in s.sending || id in s.entered
  }

  ghost predicate Next(s: State, e: Step, s': State) {
    match e
    case Call(id) => !Known(s, id) && s' == s.(sending := s.sending + {id})
    case Enqueue(id) =>
      id in s.sending && |s.queue| < CAPACITY &&
      s' == s.(sending := s.sending - {id}, queue := s.queue + [id],
               entered := s.entered + [id], waiting := s.waiting + {id})
    case FinishBoot => s.worker.Booting? && s' == s.(worker := Idle, log := s.log + [BootEnd])
    case Take =>
      s.worker.Idle? && s.queue != [] &&
      s' == s.(worker := Running(s.queue[0]), queue := s.queue[1..], log := s.log + [Begin(s.queue[0])])
    case Finish(result) =>
      s.worker.Running? && s' == s.(worker := Replying(s.worker.id, result), log := s.log + [End(s.worker.id, result)])
    case Reply =>
      s.worker.Replying? && s.worker.id in s.waiting &&
      s' == s.(worker := Idle, waiting := s.waiting - {s.worker.id},
               answers := s.answers[s.worker.id := s.worker.result])
  }

  /** The tasks begun, in order. */
  function Begun(log: seq<Event>): seq<nat> {
    if log == [] then []
    else Begun(log[..|log| - 1]) + match log[|log| - 1] case Begin(id) => [id] case _ => []
  }

  lemma BegunSnoc(log: seq<Event>, e: Event)
    ensures Begun(log + [e]) == Begun(log) + match e case Begin(id) => [id] case _ => []
  {
  }

  /** Boot first, then one task after the other: the event at `k` against the one before it. */
  ghost predicate Follows(log: seq<Event>, k: nat)
    requires k < |log|
  {
    match log[k]
    case BootEnd => k == 0
    case Begin(_) => k > 0 && !log[k - 1].Begin?
    case End(id, _) => k > 0 && log[k - 1] == Begin(id)
  }

  ghost predicate Serial(log: seq<Event>) {
    forall k :: 0 <= k < |log| ==> Follows(log, k)
  }

  /** The worker is where the end of the log says. */
  ghost predicate AtTheEnd(s: State) {
    match s.worker
    case Booting => s.log == []
    case Idle => s.log != [] && !s.log[|s.log| - 1].Begin?
    case Running(id) => s.log != [] && s.log[|s.log| - 1] == Begin(id)
    case Replying(id, result) => s.log != [] && s.log[|s.log| - 1] == End(id, result)
  }

  function Current(w: Worker): set<nat> {
    match w
    case Running(id) => {id}
    case Replying(id, _) => {id}
    case _ => {}
  }

  /** Who has entered is still queued, being served, or answered; and only those who wait are not. */
  ghost predicate Awaited(s: State) {
    && (forall id :: id in s.sending ==> id !in s.entered)
    && (forall id :: id in s.entered <==> id in s.queue || id in s.answers || id in Current(s.worker))
    && (forall id :: id in s.waiting <==> id in s.queue || id in Current(s.worker))
    && (forall id :: id in s.answers ==> id !in s.waiting)
    && (forall id :: id in s.queue ==> id !in Current(s.worker))
  }

  ghost predicate Inv(s: State) {
    && |s.queue| <= CAPACITY
    && s.entered == Begun(s.log) + s.queue
    && NoRepeats(s.entered)
    && Serial(s.log) && AtTheEnd(s)
    && Awaited(s)
    && (forall id :: id in s.answers ==> End(id, s.answers[id]) in s.log)
  }

  lemma LogStep(s: State, e: Step, s': State)
    requires Serial(s.log) && AtTheEnd(s) && Next(s, e, s')
    ensures Serial(s'.log) && AtTheEnd(s')
  {
    forall k | 0 <= k < |s'.log| ensures Follows(s'.log, k) {
      if k < |s.log| {
        assert Follows(s.log, k);
      }
    }
  }

  /** Only taking an entry from the queue begins a task. */
  lemma {:induction false} BegunStep(s: State, e: Step, s': State)
    requires Next(s, e, s')
    ensures Begun(s'.log) == Begun(s.log) + if e.Take? then [s.queue[0]] else []
  {
    match e {
      case Take => BegunSnoc(s.log, Begin(s.queue[0]));
      case FinishBoot => BegunSnoc(s.log, BootEnd);
      case Finish(result) => BegunSnoc(s.log, End(s.worker.id, result));
      case _ => assert s'.log == s.log;
    }
  }

  lemma FirstMovesOver(begun: seq<nat>, queue: seq<nat>)
    requires queue != []
    ensures begun + queue == begun + [queue[0]] + queue[1..]
  {
  }

  lemma {:induction false} QueueStep(s: State, e: Step, s': State)
    requires s.entered == Begun(s.log) + s.queue && Next(s, e, s')
    ensures s'.entered == Begun(s'.log) + s'.queue
  {
    BegunStep(s, e, s');
    match e {
      case Take => FirstMovesOver(Begun(s.log), s.queue);
      case Enqueue(id) => assert s'.entered == Begun(s.log) + (s.queue + [id]);
      case _ => assert s'.entered == s.entered && s'.queue == s.queue;
    }
  }

  /** The queue, what was begun, and who is answered or being served never overlap. */
  lemma QueueIsApart(s: State)
    requires s.entered == Begun(s.log) + s.queue && NoRepeats(s.entered)
    ensures forall id :: id in s.queue ==> id !in Begun(s.log)
    ensures s.queue != [] ==> s.queue[0] !in s.queue[1..]
  {
    var b := Begun(s.log);
    forall i, j | 0 <= i < |b| && 0 <= j < |s.queue| ensures b[i] != s.queue[j] {
      assert s.entered[i] == b[i] && s.entered[|b| + j] == s.queue[j];
    }
    forall i, j | 0 <= i < j < |s.queue| ensures s.queue[i] != s.queue[j] {
      assert s.entered[|b| + i] == s.queue[i] && s.entered[|b| + j] == s.queue[j];
    }
  }

  lemma AwaitedStep(s: State, e: Step, s': State)
    requires Awaited(s) && Next(s, e, s')
    requires s.queue != [] ==> s.queue[0] !in s.queue[1..]
    ensures Awaited(s')
  {
  }

  lemma {:induction false} InvStep(s: State, e: Step, s': State)
    requires Inv(s) && Next(s, e, s')
    ensures Inv(s')
  {
    LogStep(s, e, s');
    QueueStep(s, e, s');
    QueueIsApart(s);
    AwaitedStep(s, e, s');
    if e.Enqueue? {
      NoRepeatsSnoc(s.entered, e.id);
    }
    if e.Reply? {
      assert s.log[|s.log| - 1] in s.log;
    }
  }

  ghost predicate Run(ss: seq<State>, es: seq<Step>) {
    && |ss| == |es| + 1 && Init(ss[0])
    && forall i, j :: 0 <= i < |es| && j == i + 1 ==> Next(ss[i], es[i], ss[j])
  }

  lemma {:induction false} RunInv(ss: seq<State>, es: seq<Step>, i: nat)
    requires Run(ss, es) && i < |ss|
    ensures Inv(ss[i])
    decreases i
  {
    if i > 0 {
      RunInv(ss, es, i - 1);
      assert Next(ss[i - 1], es[i - 1], ss[i]);
      InvStep(ss[i - 1], es[i - 1], ss[i]);
    }
  }

  /**
   However many callers there are: the boot work is over before the first task, a task begins only
   when the one before has ended, the tasks begin in the order they got into the queue, each at
   most once, and the queue never holds more than ten.
   */
  lemma TasksAreSerial(ss: seq<State>, es: seq<Step>, i: nat)
    requires Run(ss, es) && i < |ss|
    ensures ss[i].log != [] ==> ss[i].log[0] == BootEnd
    ensures forall k, id :: 0 < k < |ss[i].log| && ss[i].log[k] == Begin(id) ==> !ss[i].log[k - 1].Begin?
    ensures forall k, id, r :: 0 < k < |ss[i].log| && ss[i].log[k] == End(id, r) ==> ss[i].log[k - 1] == Begin(id)
    ensures forall k :: 0 < k < |ss[i].log| ==> ss[i].log[k] != BootEnd
    ensures Begun(ss[i].log) <= ss[i].entered && NoRepeats(Begun(ss[i].log))
    ensures |ss[i].entered| - |Begun(ss[i].log)| <= 10
  {
    RunInv(ss, es, i);
    forall k | 0 < k < |ss[i].log|
      ensures ss[i].log[k].Begin? ==> !ss[i].log[k - 1].Begin?
      ensures ss[i].log[k].End? ==> ss[i].log[k - 1] == Begin(ss[i].log[k].id)
      ensures ss[i].log[k] != BootEnd
    {
      assert Follows(ss[i].log, k);
    }
    if ss[i].log != [] {
      assert Follows(ss[i].log, 0);
    }
  }

  /** What `run` returns is what the caller's own task returned, and the task has ended by then. */
  lemma CallersGetTheirOwnResult(ss: seq<State>, es: seq<Step>, i: nat, id: nat)
    requires Run(ss, es) && i < |ss| && id in ss[i].answers
    ensures End(id, ss[i].answers[id]) in ss[i].log && id in Begun(ss[i].log)
  {
    RunInv(ss, es, i);
    assert id in ss[i].entered;
  }

  /** While a caller is still without an answer, the loop itself can move: nobody is stuck for good. */
  lemma LoopNeverSticks(ss: seq<State>, es: seq<Step>, i: nat, id: nat, result: int) returns (e: Step, s': State)
    requires Run(ss, es) && i < |ss| && Known(ss[i], id) && id !in ss[i].answers
    ensures Next(ss[i], e, s') && !e.Call?
    ensures e.Enqueue? ==> ss[i].worker.Idle? && ss[i].queue == []
  {
    RunInv(ss, es, i);
    var s := ss[i];
    match s.worker {
      case Booting => e, s' := FinishBoot, s.(worker := Idle, log := s.log + [BootEnd]);
      case Running(x) => e, s' := Finish(result), s.(worker := Replying(x, result), log := s.log + [End(x, result)]);
      case Replying(x, r) =>
        e, s' := Reply, s.(worker := Idle, waiting := s.waiting - {x}, answers := s.answers[x := r]);
      case Idle =>
        if s.queue != [] {
          e, s' := Take, s.(worker := Running(s.queue[0]), queue := s.queue[1..], log := s.log + [Begin(s.queue[0])]);
        } else {
          assert id in s.sending;
          e, s' := Enqueue(id), s.(sending := s.sending - {id}, queue := s.queue + [id],
                                   entered := s.entered + [id], waiting := s.waiting + {id});
        }
    }
  }

  /** Anyone may call at any time, and gets into the queue while fewer than ten are in it. */
  lemma {:induction false} CallersGetIn(s: State, id: nat)
    ensures !Known(s, id) ==> Next(s, Call(id), s.(sending := s.sending + {id}))
    ensures id in s.sending && |s.queue| < 10 <==> exists s' :: Next(s, Enqueue(id), s')
  {
    if id in s.sending && |s.queue| < 10 {
      assert Next(s, Enqueue(id), s.(sending := s.sending - {id}, queue := s.queue + [id],
                                     entered := s.entered + [id], waiting := s.waiting + {id}));
    }
  }

  /** Begun lists the tasks that began, each where it stands in the log. */
  lemma {:induction false} BegunIsWhatBegan(log: seq<Event>, id: nat)
    ensures id in Begun(log) <==> Begin(id) in log
  {
    if log != [] {
      BegunIsWhatBegan(log[..|log| - 1], id);
      assert log == log[..|log| - 1] + [log[|log| - 1]];
    }
  }

  // ---- Everybody gets an answer --------------------------------------------------------------------

  function WorkerRank(w: Worker): nat {
    match w
    case Running(_) => 2
    case Replying(_, _) => 1
    case Booting => 1
    case Idle => 0
  }

  /** The steps the worker still owes those who are in the queue. */
  function Rank(s: State): nat {
    3 * |s.queue| + WorkerRank(s.worker)
  }

  predicate IsServing(e: Step) {
    e.FinishBoot? || e.Take? || e.Finish? || e.Reply?
  }

  lemma ServingWindsDown(s: State, e: Step, s': State)
    requires Next(s, e, s')
    ensures IsServing(e) ==> Rank(s') < Rank(s)
    ensures e.Call? ==> Rank(s') == Rank(s)
    ensures e.Enqueue? ==> Rank(s') == Rank(s) + 3
  {
  }

  ghost function EnqueuedIn(es: seq<Step>): nat {
    if es == [] then 0 else EnqueuedIn(es[..|es| - 1]) + if es[|es| - 1].Enqueue? then 1 else 0
  }

  ghost function ServedIn(es: seq<Step>): nat {
    if es == [] then 0 else ServedIn(es[..|es| - 1]) + if IsServing(es[|es| - 1]) then 1 else 0
  }

  lemma {:induction false} RunPaysItsWay(ss: seq<State>, es: seq<Step>, i: nat)
    requires Run(ss, es) && i < |ss|
    ensures ServedIn(es[..i]) + Rank(ss[i]) <= 3 * EnqueuedIn(es[..i]) + 1
    decreases i
  {
    if i > 0 {
      RunPaysItsWay(ss, es, i - 1);
      assert Next(ss[i - 1], es[i - 1], ss[i]);
      ServingWindsDown(ss[i - 1], es[i - 1], ss[i]);
      assert es[..i][..i - 1] == es[..i - 1];
    }
  }

  /**
   However callers keep coming, the worker owes at most three steps for each entry, and the boot
   work one; and whenever it has none left to make, everyone who ever got into the queue has been
   answered, with what the own task returned.
   */
  lemma EverybodyGetsAnAnswer(ss: seq<State>, es: seq<Step>, i: nat)
    requires Run(ss, es) && i < |ss|
    ensures ServedIn(es[..i]) <= 3 * EnqueuedIn(es[..i]) + 1
    ensures (forall e, s' :: IsServing(e) ==> !Next(ss[i], e, s')) ==>
              forall id :: id in ss[i].entered ==> id in ss[i].answers && End(id, ss[i].answers[id]) in ss[i].log
  {
    RunPaysItsWay(ss, es, i);
    RunInv(ss, es, i);
    if forall e, s' :: IsServing(e) ==> !Next(ss[i], e, s') {
      forall id | id in ss[i].entered ensures id in ss[i].answers {
        if id !in ss[i].answers {
          var e, s' := LoopNeverSticks(ss, es, i, id, 0);
        }
      }
    }
  }
}
